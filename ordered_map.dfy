/**
 * A Python dict with string keys: key/value pairs in insertion order.
 * Assigning to an existing key keeps that key's position; a new key goes last.
 */
module OrderedMap {
  import opened Wrappers

  type Entries<V> = seq<(string, V)>

  function Keys<V>(m: Entries<V>): (ks: seq<string>)
    ensures |ks| == |m|
    ensures forall i | 0 <= i < |m| :: ks[i] == m[i].0
  {
    seq(|m|, i requires 0 <= i < |m| => m[i].0)
  }

  predicate HasKey<V>(m: Entries<V>, k: string) {
    exists i | 0 <= i < |m| :: m[i].0 == k
  }

  predicate UniqueKeys<V>(m: Entries<V>) {
    forall i, j | 0 <= i < j < |m| :: m[i].0 != m[j].0
  }

  function KeySet<V>(m: Entries<V>): set<string> {
    set i | 0 <= i < |m| :: m[i].0
  }

  /** Position of the first entry whose key is `k`; `|m|` when there is none. */
  function IndexOf<V>(m: Entries<V>, k: string): (i: nat)
    ensures i <= |m|
    ensures i < |m| ==> m[i].0 == k
    ensures forall j | 0 <= j < i :: m[j].0 != k
  {
    if m == [] then 0 else if m[0].0 == k then 0 else 1 + IndexOf(m[1..], k)
  }

  /** `m.get(k)`: the value under `k`, or None when `k` is not a key. */
  function Get<V>(m: Entries<V>, k: string): (r: Option<V>)
    ensures r.Some? <==> HasKey(m, k)
    ensures r.Some? ==> (k, r.value) in m
  {
    var i := IndexOf(m, k);
    if i < |m| then Some(m[i].1) else None
  }

  /** With unique keys, the entry holding `k` is the one `Get` returns. */
  lemma GetUnique<V>(m: Entries<V>, j: nat)
    requires UniqueKeys(m)
    requires j < |m|
    ensures Get(m, m[j].0) == Some(m[j].1)
  {
    assert HasKey(m, m[j].0);
    var i := IndexOf(m, m[j].0);
    assert !(i < j) && !(j < i);
  }

  /** `m[k] = v`. */
  function Put<V>(m: Entries<V>, k: string, v: V): Entries<V> {
    var i := IndexOf(m, k);
    if i < |m| then m[i := (k, v)] else m + [(k, v)]
  }

  lemma IndexOfSameKeys<V>(m1: Entries<V>, m2: Entries<V>, k: string)
    requires Keys(m1) == Keys(m2)
    ensures IndexOf(m1, k) == IndexOf(m2, k)
  {
    assert |m1| == |m2|;
  }

  /** What an assignment does: the key now reads `v`, every other key reads as before,
      old keys keep their order and a new key is appended, and keys stay unique. */
  lemma PutSpec<V>(m: Entries<V>, k: string, v: V)
    ensures Get(Put(m, k, v), k) == Some(v)
    ensures forall k' | k' != k :: Get(Put(m, k, v), k') == Get(m, k')
    ensures Keys(Put(m, k, v)) == if HasKey(m, k) then Keys(m) else Keys(m) + [k]
    ensures KeySet(Put(m, k, v)) == KeySet(m) + {k}
    ensures UniqueKeys(m) ==> UniqueKeys(Put(m, k, v))
  {
    assert HasKey(m, k) <==> IndexOf(m, k) < |m|;
    PutKeys(m, k, v);
    PutGetSame(m, k, v);
    forall k' | k' != k ensures Get(Put(m, k, v), k') == Get(m, k') {
      PutGetOther(m, k, v, k');
    }
    PutKeySet(m, k, v);
    if UniqueKeys(m) {
      PutUnique(m, k, v);
    }
  }

  /** The keys after an assignment: unchanged, or one appended. */
  lemma PutKeys<V>(m: Entries<V>, k: string, v: V)
    ensures Keys(Put(m, k, v)) == if IndexOf(m, k) < |m| then Keys(m) else Keys(m) + [k]
  {
    var r := Put(m, k, v);
    if IndexOf(m, k) < |m| {
      forall j | 0 <= j < |m| ensures Keys(r)[j] == Keys(m)[j] {
      }
    } else {
      forall j | 0 <= j < |r| ensures Keys(r)[j] == (Keys(m) + [k])[j] {
      }
    }
  }

  /** The assigned key reads the new value. */
  lemma PutGetSame<V>(m: Entries<V>, k: string, v: V)
    ensures Get(Put(m, k, v), k) == Some(v)
  {
    var r := Put(m, k, v);
    var i := IndexOf(m, k);
    PutKeys(m, k, v);
    if i < |m| {
      IndexOfSameKeys(r, m, k);
    } else {
      assert r[|m|].0 == k;
      assert r[..|m|] == m;
    }
  }

  /** Every other key reads as before. */
  lemma PutGetOther<V>(m: Entries<V>, k: string, v: V, k': string)
    requires k' != k
    ensures Get(Put(m, k, v), k') == Get(m, k')
  {
    var r := Put(m, k, v);
    PutKeys(m, k, v);
    if IndexOf(m, k) < |m| {
      IndexOfSameKeys(r, m, k');
    } else {
      assert r[..|m|] == m;
      assert r[|m|].0 == k;
    }
  }

  /** The key set gains `k`. */
  lemma PutKeySet<V>(m: Entries<V>, k: string, v: V)
    ensures KeySet(Put(m, k, v)) == KeySet(m) + {k}
  {
    var r := Put(m, k, v);
    var i := IndexOf(m, k);
    PutKeys(m, k, v);
    forall x | x in KeySet(r) ensures x in KeySet(m) + {k} {
      var j :| 0 <= j < |r| && r[j].0 == x;
      assert Keys(r)[j] == x;
      if j < |m| {
        assert Keys(m)[j] == x;
      }
    }
    forall x | x in KeySet(m) ensures x in KeySet(r) {
      var j :| 0 <= j < |m| && m[j].0 == x;
      assert Keys(r)[j] == Keys(m)[j];
    }
    if i < |m| {
      assert m[i].0 == k;
    } else {
      assert r[|m|].0 == k;
    }
  }

  /** Assignment keeps keys unique. */
  lemma PutUnique<V>(m: Entries<V>, k: string, v: V)
    requires UniqueKeys(m)
    ensures UniqueKeys(Put(m, k, v))
  {
    var r := Put(m, k, v);
    PutKeys(m, k, v);
    forall a, b | 0 <= a < b < |r| ensures r[a].0 != r[b].0 {
      assert Keys(r)[a] == r[a].0 && Keys(r)[b] == r[b].0;
      if b < |m| {
        assert Keys(m)[a] == m[a].0 && Keys(m)[b] == m[b].0;
      } else {
        assert Keys(m)[a] == m[a].0;
      }
    }
  }

  /** With unique keys there are exactly as many entries as distinct keys. */
  lemma {:induction false} UniqueKeysCount<V>(m: Entries<V>)
    requires UniqueKeys(m)
    ensures |KeySet(m)| == |m|
  {
    if m != [] {
      var t := m[1..];
      UniqueKeysCount(t);
      assert KeySet(m) == KeySet(t) + {m[0].0} by {
        forall x | x in KeySet(m) ensures x in KeySet(t) + {m[0].0} {
          var j :| 0 <= j < |m| && m[j].0 == x;
          if j > 0 { assert t[j - 1].0 == x; }
        }
        forall x | x in KeySet(t) ensures x in KeySet(m) {
          var j :| 0 <= j < |t| && t[j].0 == x;
          assert m[j + 1].0 == x;
        }
      }
      assert m[0].0 !in KeySet(t) by {
        forall j | 0 <= j < |t| ensures t[j].0 != m[0].0 {
          assert t[j] == m[j + 1];
        }
      }
    }
  }

  /** Assigning each pair in turn, starting from an empty dict. */
  function FromPairs<V>(ps: seq<(string, V)>): Entries<V> {
    if ps == [] then []
    else Put(FromPairs(ps[..|ps| - 1]), ps[|ps| - 1].0, ps[|ps| - 1].1)
  }

  function PairKeys<V>(ps: seq<(string, V)>): set<string> {
    set i | 0 <= i < |ps| :: ps[i].0
  }

  lemma PairKeysSnoc<V>(ps: seq<(string, V)>)
    requires ps != []
    ensures PairKeys(ps) == PairKeys(ps[..|ps| - 1]) + {ps[|ps| - 1].0}
  {
    var n := |ps| - 1;
    var init := ps[..n];
    forall x | x in PairKeys(ps) ensures x in PairKeys(init) + {ps[n].0} {
      var i :| 0 <= i < |ps| && ps[i].0 == x;
      if i < n { assert init[i].0 == x; }
    }
    forall x | x in PairKeys(init) ensures x in PairKeys(ps) {
      var i :| 0 <= i < |init| && init[i].0 == x;
      assert ps[i].0 == x;
    }
  }

  /** The result has each assigned key once: one entry per distinct key. */
  lemma {:induction false} FromPairsKeys<V>(ps: seq<(string, V)>)
    ensures UniqueKeys(FromPairs(ps))
    ensures KeySet(FromPairs(ps)) == PairKeys(ps)
    ensures |FromPairs(ps)| == |PairKeys(ps)|
  {
    if ps != [] {
      var n := |ps| - 1;
      var init := ps[..n];
      var m := FromPairs(init);
      assert FromPairs(ps) == Put(m, ps[n].0, ps[n].1);
      FromPairsKeys(init);
      PutSpec(m, ps[n].0, ps[n].1);
      PairKeysSnoc(ps);
      UniqueKeysCount(FromPairs(ps));
    }
  }

  /** A key reads the value of its last assignment. */
  lemma {:induction false} FromPairsLast<V>(ps: seq<(string, V)>, j: nat)
    requires j < |ps|
    requires forall j' | j < j' < |ps| :: ps[j'].0 != ps[j].0
    ensures Get(FromPairs(ps), ps[j].0) == Some(ps[j].1)
  {
    var n := |ps| - 1;
    var init := ps[..n];
    var m := FromPairs(init);
    assert FromPairs(ps) == Put(m, ps[n].0, ps[n].1);
    if j < n {
      assert init[j] == ps[j];
      assert forall j' | j < j' < |init| :: init[j'] == ps[j'];
      FromPairsLast(init, j);
      PutGetOther(m, ps[n].0, ps[n].1, ps[j].0);
    } else {
      PutGetSame(m, ps[n].0, ps[n].1);
    }
  }
}
