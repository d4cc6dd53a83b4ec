/**
 * Dictionaries filled by successive assignments (`d[k] = v`, `out[k] = {...}`), where a
 * later assignment to the same key overwrites an earlier one, and dictionaries of running
 * totals (`d[k] = d.get(k, 0.0) + v`).
 */
module Maps {

  function Get<K, V>(m: map<K, V>, k: K, default: V): V {
    if k in m then m[k] else default
  }

  /** The dictionary after assigning each pair in order, starting from `base`. */
  function AssignAll<K, V>(base: map<K, V>, pairs: seq<(K, V)>): map<K, V>
    decreases |pairs|
  {
    if pairs == [] then base
    else
      var last := pairs[|pairs| - 1];
      AssignAll(base, pairs[..|pairs| - 1])[last.0 := last.1]
  }

  /** Assigning one more pair of a sequence, as a loop over it does. */
  lemma AssignAllPrefix<K, V>(base: map<K, V>, pairs: seq<(K, V)>, i: nat)
    requires i < |pairs|
    ensures AssignAll(base, pairs[..i + 1]) == AssignAll(base, pairs[..i])[pairs[i].0 := pairs[i].1]
  {
    assert pairs[..i + 1][..i] == pairs[..i];
  }

  lemma AssignAllSnoc<K, V>(base: map<K, V>, pairs: seq<(K, V)>, last: (K, V))
    ensures AssignAll(base, pairs + [last]) == AssignAll(base, pairs)[last.0 := last.1]
  {
    assert (pairs + [last])[..|pairs|] == pairs;
  }

  lemma {:induction false} AssignAllKeys<K, V>(base: map<K, V>, pairs: seq<(K, V)>)
    ensures AssignAll(base, pairs).Keys == base.Keys + set i | 0 <= i < |pairs| :: pairs[i].0
    decreases |pairs|
  {
    if pairs != [] {
      var init := pairs[..|pairs| - 1];
      AssignAllKeys(base, init);
      assert (set i | 0 <= i < |pairs| :: pairs[i].0)
          == (set i | 0 <= i < |init| :: init[i].0) + {pairs[|pairs| - 1].0};
    }
  }

  /** The value left at a key is that of the last pair assigning it. */
  lemma {:induction false} AssignAllLast<K, V>(base: map<K, V>, pairs: seq<(K, V)>, i: nat)
    requires i < |pairs|
    requires forall j :: i < j < |pairs| ==> pairs[j].0 != pairs[i].0
    ensures pairs[i].0 in AssignAll(base, pairs)
    ensures AssignAll(base, pairs)[pairs[i].0] == pairs[i].1
    decreases |pairs|
  {
    if i < |pairs| - 1 {
      AssignAllLast(base, pairs[..|pairs| - 1], i);
    }
  }

  /** A key no pair assigns keeps its value from `base`. */
  lemma {:induction false} AssignAllUntouched<K, V>(base: map<K, V>, pairs: seq<(K, V)>, k: K)
    requires forall j :: 0 <= j < |pairs| ==> pairs[j].0 != k
    ensures k in AssignAll(base, pairs) <==> k in base
    ensures k in base ==> AssignAll(base, pairs)[k] == base[k]
    decreases |pairs|
  {
    if pairs != [] {
      AssignAllUntouched(base, pairs[..|pairs| - 1], k);
    }
  }

  /** Running totals: every key of either map, with the two values added (missing counts 0). */
  function AddTotals<K>(acc: map<K, real>, more: map<K, real>): (r: map<K, real>)
  {
    map k | k in acc.Keys + more.Keys :: Get(acc, k, 0.0) + Get(more, k, 0.0)
  }

  /** Adding into one key of the second map is adding into that key of the total. */
  lemma AddTotalsUpdate<K>(acc: map<K, real>, more: map<K, real>, k: K, v: real)
    ensures AddTotals(acc, more[k := Get(more, k, 0.0) + v])
         == AddTotals(acc, more)[k := Get(AddTotals(acc, more), k, 0.0) + v]
  {
    var lhs := AddTotals(acc, more[k := Get(more, k, 0.0) + v]);
    var rhs := AddTotals(acc, more)[k := Get(AddTotals(acc, more), k, 0.0) + v];
    assert lhs.Keys == rhs.Keys;
    forall x | x in lhs ensures lhs[x] == rhs[x] {
      if x != k {
        assert Get(more[k := Get(more, k, 0.0) + v], x, 0.0) == Get(more, x, 0.0);
      }
    }
  }

  lemma AddTotalsCommutes<K>(a: map<K, real>, b: map<K, real>)
    ensures AddTotals(a, b) == AddTotals(b, a)
  {
  }

  /** Per-key sums of a sequence of (key, amount) pairs, as a groupby-sum computes them. */
  function SumByKey<K>(pairs: seq<(K, real)>): map<K, real>
    decreases |pairs|
  {
    if pairs == [] then map[]
    else
      var g := SumByKey(pairs[..|pairs| - 1]);
      var last := pairs[|pairs| - 1];
      g[last.0 := Get(g, last.0, 0.0) + last.1]
  }
  /** The sum of the amounts paired with `k`. */
  function SumFor<K(==)>(pairs: seq<(K, real)>, k: K): real
    decreases |pairs|
  {
    if pairs == [] then 0.0
    else SumFor(pairs[..|pairs| - 1], k) + (if pairs[|pairs| - 1].0 == k then pairs[|pairs| - 1].1 else 0.0)
  }
  predicate HasKey<K(==)>(pairs: seq<(K, real)>, k: K) {
    exists i :: 0 <= i < |pairs| && pairs[i].0 == k
  }
  /** The groups are the keys that occur, and each holds the sum of its amounts. */
  lemma {:induction false} SumByKeyAt<K>(pairs: seq<(K, real)>, k: K)
    ensures k in SumByKey(pairs) <==> HasKey(pairs, k)
    ensures Get(SumByKey(pairs), k, 0.0) == SumFor(pairs, k)
    decreases |pairs|
  {
    if pairs != [] {
      var init := pairs[..|pairs| - 1];
      SumByKeyAt(init, k);
      if HasKey(pairs, k) && pairs[|pairs| - 1].0 != k {
        var i :| 0 <= i < |pairs| && pairs[i].0 == k;
        assert init[i].0 == k;
      }
      if HasKey(init, k) {
        var i :| 0 <= i < |init| && init[i].0 == k;
        assert pairs[i].0 == k;
      }
    }
  }
  lemma {:induction false} SumForAppend<K>(p: seq<(K, real)>, q: seq<(K, real)>, k: K)
    ensures SumFor(p + q, k) == SumFor(p, k) + SumFor(q, k)
    decreases |q|
  {
    if q == [] {
      assert p + q == p;
    } else {
      var pq := p + q;
      assert pq[..|pq| - 1] == p + q[..|q| - 1];
      SumForAppend(p, q[..|q| - 1], k);
    }
  }
  lemma HasKeyAppend<K>(p: seq<(K, real)>, q: seq<(K, real)>, k: K)
    ensures HasKey(p + q, k) <==> HasKey(p, k) || HasKey(q, k)
  {
    if HasKey(p + q, k) {
      var i :| 0 <= i < |p + q| && (p + q)[i].0 == k;
      if i >= |p| { assert q[i - |p|].0 == k; }
    }
    if HasKey(p, k) {
      var i :| 0 <= i < |p| && p[i].0 == k;
      assert (p + q)[i].0 == k;
    }
    if HasKey(q, k) {
      var i :| 0 <= i < |q| && q[i].0 == k;
      assert (p + q)[i + |p|].0 == k;
    }
  }
  /** Summing two blocks separately and adding the sums is summing them together. */
  lemma SumByKeyAppend<K>(p: seq<(K, real)>, q: seq<(K, real)>)
    ensures SumByKey(p + q) == AddTotals(SumByKey(p), SumByKey(q))
  {
    var sp, sq := SumByKey(p), SumByKey(q);
    var l, r := SumByKey(p + q), AddTotals(sp, sq);
    forall k | k in l ensures k in r {
      SumByKeyAt(p + q, k); SumByKeyAt(p, k); SumByKeyAt(q, k); HasKeyAppend(p, q, k);
    }
    forall k | k in r ensures k in l {
      SumByKeyAt(p + q, k); SumByKeyAt(p, k); SumByKeyAt(q, k); HasKeyAppend(p, q, k);
    }
    assert l.Keys == r.Keys;
    forall k | k in l ensures l[k] == r[k] {
      SumByKeyAt(p + q, k); SumByKeyAt(p, k); SumByKeyAt(q, k); SumForAppend(p, q, k);
    }
  }

  /** Adding into the running totals key by key, as `for k, v in g.items(): d[k] = d.get(k, 0.0) + v`. */
  method AddInto<K>(acc: map<K, real>, more: map<K, real>) returns (r: map<K, real>)
    ensures r == AddTotals(acc, more)
  {
    r := acc;
    var todo := more.Keys;
    while todo != {}
      invariant todo <= more.Keys
      invariant r.Keys == acc.Keys + (more.Keys - todo)
      invariant forall k :: k in r ==> r[k] == Get(acc, k, 0.0) + (if k in more.Keys - todo then more[k] else 0.0)
      decreases todo
    {
      var k :| k in todo;
      r := r[k := Get(r, k, 0.0) + more[k]];
      todo := todo - {k};
    }
  }
}
