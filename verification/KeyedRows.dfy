/** Rows collected in an insertion-ordered dictionary: a repeated key merges into the row already there. */
module KeyedRows {
  import opened Options

  function IndexOf<R, K(==)>(key: R -> K, rows: seq<R>, k: K): (i: Option<nat>)
    ensures i.Some? ==> i.value < |rows| && key(rows[i.value]) == k
    ensures i.None? ==> forall r :: r in rows ==> key(r) != k
  {
    if rows == [] then None
    else if key(rows[|rows| - 1]) == k then Some(|rows| - 1)
    else IndexOf(key, rows[..|rows| - 1], k)
  }

  function Absorb<R, K(==)>(key: R -> K, merge: (R, R) -> R, out: seq<R>, row: R): seq<R> {
    match IndexOf(key, out, key(row))
    case Some(i) => out[i := merge(out[i], row)]
    case None => out + [row]
  }

  /** The dictionary's values after all of `rows`. */
  function Collect<R, K(==)>(key: R -> K, merge: (R, R) -> R, rows: seq<R>): seq<R> {
    if rows == [] then [] else Absorb(key, merge, Collect(key, merge, rows[..|rows| - 1]), rows[|rows| - 1])
  }

  function Keys<R, K>(key: R -> K, rows: seq<R>): (ks: seq<K>)
    ensures |ks| == |rows| && forall i :: 0 <= i < |rows| ==> ks[i] == key(rows[i])
  {
    seq(|rows|, i requires 0 <= i < |rows| => key(rows[i]))
  }

  /** The keys in the order in which they first occur. */
  function FirstSeen<R, K(==)>(key: R -> K, rows: seq<R>): seq<K> {
    if rows == [] then []
    else
      var before := FirstSeen(key, rows[..|rows| - 1]);
      var k := key(rows[|rows| - 1]);
      if k in before then before else before + [k]
  }

  /** Key `k` occurs before position `q`. */
  ghost predicate SeenBefore<R, K>(key: R -> K, rows: seq<R>, q: nat, k: K)
    requires q <= |rows|
  {
    exists p :: 0 <= p < q && key(rows[p]) == k
  }

  lemma SeenLonger<R, K>(key: R -> K, rows: seq<R>, n: nat, q: nat, k: K)
    requires q <= n <= |rows|
    ensures SeenBefore(key, rows[..n], q, k) <==> SeenBefore(key, rows, q, k)
  {
    assert forall p :: 0 <= p < q ==> rows[..n][p] == rows[p];
  }

  /** Exactly the keys there are. */
  lemma {:induction false} FirstSeenIsAll<R, K>(key: R -> K, rows: seq<R>, k: K)
    ensures k in FirstSeen(key, rows) <==> SeenBefore(key, rows, |rows|, k)
  {
    if rows != [] {
      var n := |rows| - 1;
      FirstSeenIsAll(key, rows[..n], k);
      SeenLonger(key, rows, n, n, k);
      assert SeenBefore(key, rows, n + 1, k) <==> SeenBefore(key, rows, n, k) || key(rows[n]) == k;
    }
  }

  /** Wherever a key occurs, every key that is listed before it has been seen. */
  lemma {:induction false} FirstSeenIsInOrder<R, K>(key: R -> K, rows: seq<R>, i: nat, j: nat, q: nat)
    requires i < j < |FirstSeen(key, rows)| && q < |rows| && key(rows[q]) == FirstSeen(key, rows)[j]
    ensures SeenBefore(key, rows, q, FirstSeen(key, rows)[i])
  {
    var n := |rows| - 1;
    var before, ks := FirstSeen(key, rows[..n]), FirstSeen(key, rows);
    assert ks[i] == before[i];
    if q == n {
      FirstSeenIsAll(key, rows[..n], before[i]);
      SeenLonger(key, rows, n, n, ks[i]);
    } else {
      assert rows[..n][q] == rows[q];
      if j < |before| {
        FirstSeenIsInOrder(key, rows[..n], i, j, q);
        SeenLonger(key, rows, n, q, ks[i]);
      } else {
        FirstSeenIsAll(key, rows[..n], ks[j]);
      }
    }
  }

  /** The rows of key `k`, merged from left to right. */
  function Merged<R, K(==)>(key: R -> K, merge: (R, R) -> R, rows: seq<R>, k: K): Option<R> {
    if rows == [] then None
    else
      var before := Merged(key, merge, rows[..|rows| - 1], k);
      var row := rows[|rows| - 1];
      if key(row) != k then before else if before.None? then Some(row) else Some(merge(before.value, row))
  }

  predicate Distinct<K(==)>(ks: seq<K>) {
    forall i, j :: 0 <= i < j < |ks| ==> ks[i] != ks[j]
  }

  ghost predicate KeepsKey<R(!new), K>(key: R -> K, merge: (R, R) -> R) {
    forall a, b :: key(a) == key(b) ==> key(merge(a, b)) == key(a)
  }

  /** One row per key, in first-seen order, each the merge of its key's rows in their order. */
  lemma {:induction false} CollectMerges<R(!new), K>(key: R -> K, merge: (R, R) -> R, rows: seq<R>)
    requires KeepsKey(key, merge)
    ensures Keys(key, Collect(key, merge, rows)) == FirstSeen(key, rows)
    ensures Distinct(Keys(key, Collect(key, merge, rows)))
    ensures forall r :: r in Collect(key, merge, rows) ==> Merged(key, merge, rows, key(r)) == Some(r)
    ensures forall k :: k !in FirstSeen(key, rows) ==> Merged(key, merge, rows, k).None?
  {
    if rows != [] {
      var n := |rows| - 1;
      CollectMerges(key, merge, rows[..n]);
      var out, row := Collect(key, merge, rows[..n]), rows[n];
      var after := Collect(key, merge, rows);
      match IndexOf(key, out, key(row)) {
        case Some(i) =>
          assert Keys(key, out)[i] == key(row);
          assert Keys(key, after) == Keys(key, out);
          assert out[i] in out;
          forall r | r in after ensures Merged(key, merge, rows, key(r)) == Some(r) {
            var j :| 0 <= j < |after| && after[j] == r;
            if j != i {
              assert out[j] in out && Keys(key, out)[j] == key(out[j]);
            }
          }
        case None =>
          assert key(row) !in Keys(key, out);
          assert Keys(key, after) == Keys(key, out) + [key(row)];
          forall r | r in after ensures Merged(key, merge, rows, key(r)) == Some(r) {
            if r in out {
            } else {
              assert r == row;
            }
          }
      }
    }
  }

  lemma DistinctPrefix<R, K>(key: R -> K, rows: seq<R>)
    requires rows != [] && Distinct(Keys(key, rows))
    ensures Distinct(Keys(key, rows[..|rows| - 1]))
    ensures IndexOf(key, rows[..|rows| - 1], key(rows[|rows| - 1])).None?
  {
    var n, ks := |rows| - 1, Keys(key, rows);
    assert Keys(key, rows[..n]) == ks[..n];
    forall i | 0 <= i < n ensures key(rows[i]) != key(rows[n]) {
      assert ks[i] != ks[n];
    }
  }

  /** Rows without repeated keys are left as they are; so collecting twice is collecting once. */
  lemma {:induction false} DistinctStays<R, K>(key: R -> K, merge: (R, R) -> R, rows: seq<R>)
    requires Distinct(Keys(key, rows))
    ensures Collect(key, merge, rows) == rows
  {
    if rows != [] {
      DistinctPrefix(key, rows);
      DistinctStays(key, merge, rows[..|rows| - 1]);
      assert rows[..|rows| - 1] + [rows[|rows| - 1]] == rows;
    }
  }

  lemma CollectIsIdempotent<R(!new), K>(key: R -> K, merge: (R, R) -> R, rows: seq<R>)
    requires KeepsKey(key, merge)
    ensures Collect(key, merge, Collect(key, merge, rows)) == Collect(key, merge, rows)
  {
    CollectMerges(key, merge, rows);
    DistinctStays(key, merge, Collect(key, merge, rows));
  }

  lemma OneMore<R, K>(key: R -> K, merge: (R, R) -> R, rows: seq<R>, n: nat)
    requires n < |rows|
    ensures
      var k := key(rows[n]);
      var before := FirstSeen(key, rows[..n]);
      FirstSeen(key, rows[..n + 1]) == if k in before then before else before + [k]
    ensures forall k ::
              var before := Merged(key, merge, rows[..n], k);
              Merged(key, merge, rows[..n + 1], k)
              == if key(rows[n]) != k then before
                 else if before.None? then Some(rows[n]) else Some(merge(before.value, rows[n]))
  {
    assert rows[..n + 1][..n] == rows[..n];
  }

  /** The loop that fills the dictionary: its keys in insertion order, and the value of each. */
  method Fill<R, K(==,!new)>(key: R -> K, merge: (R, R) -> R, rows: seq<R>) returns (order: seq<K>, byKey: map<K, R>)
    ensures order == FirstSeen(key, rows)
    ensures forall k :: k in order <==> k in byKey
    ensures forall k :: k in byKey ==> Merged(key, merge, rows, k) == Some(byKey[k])
  {
    order, byKey := [], map[];
    var n := 0;
    while n < |rows|
      invariant 0 <= n <= |rows|
      invariant order == FirstSeen(key, rows[..n])
      invariant forall k :: k in order <==> k in byKey
      invariant forall k :: Merged(key, merge, rows[..n], k) == if k in byKey then Some(byKey[k]) else None
    {
      var row := rows[n];
      OneMore(key, merge, rows, n);
      if key(row) !in byKey {
        order := order + [key(row)];
        byKey := byKey[key(row) := row];
      } else {
        byKey := byKey[key(row) := merge(byKey[key(row)], row)];
      }
      n := n + 1;
    }
    assert rows[..n] == rows;
  }

  /** `list(by_key.values())` after the loop. */
  method CollectInto<R(!new), K(==,!new)>(key: R -> K, merge: (R, R) -> R, rows: seq<R>) returns (out: seq<R>)
    requires KeepsKey(key, merge)
    ensures out == Collect(key, merge, rows)
  {
    var order, byKey := Fill(key, merge, rows);
    CollectMerges(key, merge, rows);
    ghost var expected := Collect(key, merge, rows);
    out := [];
    var n := 0;
    while n < |order|
      invariant 0 <= n <= |order| && out == expected[..n]
    {
      assert Keys(key, expected)[n] == order[n] && expected[n] in expected;
      out := out + [byKey[order[n]]];
      n := n + 1;
    }
  }
}
