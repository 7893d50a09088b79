/** The database timing of web/app/lib/request-timing.ts: a counter and one timestamp against the time during which at
    least one query is in flight. */
module RequestTiming {
  import opened Options

  /** A query of the request: `end` is unset while it is in flight. */
  datatype Query = Query(start: int, end: Option<int>)

  predicate InFlight(q: Query, m: int) {
    q.start <= m && (q.end.Some? ==> m < q.end.value)
  }

  ghost predicate Busy(qs: seq<Query>, m: int) {
    exists i :: 0 <= i < |qs| && InFlight(qs[i], m)
  }

  /** The milliseconds from `from` up to `to` with at least one query in flight: the reference definition. */
  ghost function BusySet(qs: seq<Query>, from: int, to: int): set<int> {
    set m | from <= m < to && Busy(qs, m)
  }

  ghost function Range(from: int, to: int): (r: set<int>)
    ensures forall m :: (m in r <==> from <= m < to)
    decreases if from < to then to - from else 0
  {
    if from < to then Range(from, to - 1) + {to - 1} else {}
  }

  function OpenCount(qs: seq<Query>): nat {
    if qs == [] then 0 else OpenCount(qs[..|qs| - 1]) + if qs[|qs| - 1].end.None? then 1 else 0
  }

  function Duration(q: Query, now: int): int {
    (if q.end.Some? then q.end.value else now) - q.start
  }

  /** Durations of the finished queries, added up. */
  function ClosedSum(qs: seq<Query>): int {
    if qs == [] then 0
    else ClosedSum(qs[..|qs| - 1]) + if qs[|qs| - 1].end.Some? then Duration(qs[|qs| - 1], 0) else 0
  }

  /** Durations of all queries, the open ones counted up to `now`. */
  function TotalSum(qs: seq<Query>, now: int): int {
    if qs == [] then 0 else TotalSum(qs[..|qs| - 1], now) + Duration(qs[|qs| - 1], now)
  }

  lemma {:induction false} RangeSize(from: int, to: int)
    requires from <= to
    ensures |Range(from, to)| == to - from
    decreases -from + to
  {
    if from < to {
      RangeSize(from, to - 1);
    }
  }

  lemma SubsetSize(a: set<int>, b: set<int>)
    requires a <= b
    ensures |a| <= |b|
  {
    assert b == a + (b - a);
  }

  lemma {:induction false} CloseOne(qs: seq<Query>, i: nat, end: int)
    requires i < |qs| && qs[i].end.None?
    ensures OpenCount(qs[i := qs[i].(end := Some(end))]) == OpenCount(qs) - 1
    ensures ClosedSum(qs[i := qs[i].(end := Some(end))]) == ClosedSum(qs) + end - qs[i].start
  {
    var n := |qs| - 1;
    var after := qs[i := qs[i].(end := Some(end))];
    if i < n {
      CloseOne(qs[..n], i, end);
      assert after[..n] == qs[..n][i := qs[i].(end := Some(end))];
    } else {
      assert after[..n] == qs[..n];
    }
  }

  lemma {:induction false} OpenExists(qs: seq<Query>) returns (i: nat)
    requires OpenCount(qs) > 0
    ensures i < |qs| && qs[i].end.None?
  {
    if qs[|qs| - 1].end.None? {
      i := |qs| - 1;
    } else {
      i := OpenExists(qs[..|qs| - 1]);
    }
  }

  lemma {:induction false} OpenCountsOne(qs: seq<Query>, i: nat)
    requires i < |qs| && qs[i].end.None?
    ensures OpenCount(qs) > 0
  {
    if i < |qs| - 1 {
      OpenCountsOne(qs[..|qs| - 1], i);
    }
  }

  /** The counter is zero exactly when every query has ended. */
  lemma OpenCountIsZeroIff(qs: seq<Query>)
    ensures OpenCount(qs) == 0 <==> forall i :: 0 <= i < |qs| ==> qs[i].end.Some?
  {
    if OpenCount(qs) > 0 {
      var i := OpenExists(qs);
    } else {
      forall i | 0 <= i < |qs| ensures qs[i].end.Some? {
        if qs[i].end.None? {
          OpenCountsOne(qs, i);
        }
      }
    }
  }

  /** Closing a query at `now` changes nothing before `now`. */
  lemma CloseKeepsPast(qs: seq<Query>, i: nat, now: int, m: int)
    requires i < |qs| && qs[i].end.None? && m < now
    ensures Busy(qs[i := qs[i].(end := Some(now))], m) <==> Busy(qs, m)
  {
    var after := qs[i := qs[i].(end := Some(now))];
    if Busy(qs, m) {
      var j :| 0 <= j < |qs| && InFlight(qs[j], m);
      assert InFlight(after[j], m);
    }
    if Busy(after, m) {
      var j :| 0 <= j < |after| && InFlight(after[j], m);
      assert InFlight(qs[j], m);
    }
  }

  lemma OpenKeepsPast(qs: seq<Query>, now: int, m: int)
    requires m < now
    ensures Busy(qs + [Query(now, None)], m) <==> Busy(qs, m)
  {
    var after := qs + [Query(now, None)];
    if Busy(qs, m) {
      var j :| 0 <= j < |qs| && InFlight(qs[j], m);
      assert InFlight(after[j], m);
    }
    if Busy(after, m) {
      var j :| 0 <= j < |after| && InFlight(after[j], m);
      assert InFlight(qs[j], m);
    }
  }

  /** Wall time never exceeds the additive sum ... */
  lemma {:induction false} BusyAtMostSum(qs: seq<Query>, from: int, to: int)
    requires forall q :: q in qs ==> q.start <= to && (q.end.Some? ==> q.start <= q.end.value)
    ensures |BusySet(qs, from, to)| <= TotalSum(qs, to)
  {
    if qs == [] {
      assert BusySet(qs, from, to) == {};
    } else {
      var n := |qs| - 1;
      var q := qs[n];
      var stop := if q.end.Some? then q.end.value else to;
      BusyAtMostSum(qs[..n], from, to);
      RangeSize(q.start, stop);
      forall m | m in BusySet(qs, from, to) ensures m in BusySet(qs[..n], from, to) + Range(q.start, stop) {
        var j :| 0 <= j < |qs| && InFlight(qs[j], m);
        if j < n {
          assert InFlight(qs[..n][j], m);
        }
      }
      SubsetSize(BusySet(qs, from, to), BusySet(qs[..n], from, to) + Range(q.start, stop));
      UnionSize(BusySet(qs[..n], from, to), Range(q.start, stop));
    }
  }

  lemma UnionSize(a: set<int>, b: set<int>)
    ensures |a + b| <= |a| + |b|
  {
    assert a + b == a + (b - a) && |a + (b - a)| == |a| + |b - a|;
    SubsetSize(b - a, b);
  }

  /** ... nor the elapsed time. */
  lemma BusyAtMostElapsed(qs: seq<Query>, from: int, to: int)
    requires from <= to
    ensures |BusySet(qs, from, to)| <= to - from
  {
    RangeSize(from, to);
    SubsetSize(BusySet(qs, from, to), Range(from, to));
  }

  /** A stretch that is busy throughout adds its whole length. */
  lemma BusyStretch(qs: seq<Query>, from: int, mid: int, to: int)
    requires from <= mid <= to && forall m :: mid <= m < to ==> Busy(qs, m)
    ensures |BusySet(qs, from, to)| == |BusySet(qs, from, mid)| + to - mid
  {
    RangeSize(mid, to);
    assert BusySet(qs, from, to) == BusySet(qs, from, mid) + Range(mid, to);
    assert BusySet(qs, from, mid) !! Range(mid, to);
  }

  class RequestTimingContext {
    var dbWallMs: int
    var dbQuerySumMs: int
    var dbActiveCount: nat
    var dbActiveStartedAt: Option<int>

    // The request's history: every query so far, the first and the last reading of the clock.
    ghost var queries: seq<Query>
    ghost const origin: int
    ghost var clock: int

    ghost predicate Valid()
      reads this
    {
      && origin <= clock
      && (forall q :: q in queries ==>
            origin <= q.start <= clock && (q.end.Some? ==> q.start <= q.end.value <= clock))
      && dbActiveCount == OpenCount(queries)
      && dbQuerySumMs == ClosedSum(queries)
      && (dbActiveStartedAt.Some? <==> dbActiveCount > 0)
      && match dbActiveStartedAt
         case None => dbWallMs == |BusySet(queries, origin, clock)|
         case Some(since) =>
           && origin <= since <= clock && dbWallMs == |BusySet(queries, origin, since)|
           && forall m :: since <= m < clock ==> Busy(queries, m)
    }

    constructor (now: int)
      ensures Valid() && queries == [] && origin == now && clock == now
    {
      dbWallMs, dbQuerySumMs, dbActiveCount, dbActiveStartedAt := 0, 0, 0, None;
      queries, origin, clock := [], now, now;
      new;
      assert BusySet([], now, now) == {};
    }

    /** Between the last reading and `now` the state of the counter did not change. */
    lemma Quiescent(now: int)
      requires Valid() && clock <= now
      ensures dbActiveCount == 0 ==> BusySet(queries, origin, now) == BusySet(queries, origin, clock)
      ensures dbActiveCount > 0 ==> forall m :: clock <= m < now ==> Busy(queries, m)
    {
      if dbActiveCount == 0 {
        forall m | clock <= m < now ensures !Busy(queries, m) {
          if Busy(queries, m) {
            var i :| 0 <= i < |queries| && InFlight(queries[i], m);
            assert queries[i] in queries;
            OpenCountsOne(queries, i);
          }
        }
      } else {
        var i := OpenExists(queries);
        forall m | clock <= m < now ensures Busy(queries, m) {
          assert queries[i] in queries && InFlight(queries[i], m);
        }
      }
    }

    /** `beginDbTiming`: the result stands for the closure, which remembers `startedAt`. */
    method BeginDbTiming(now: int) returns (startedAt: int, ghost handle: nat)
      requires Valid() && clock <= now
      modifies this
      ensures Valid() && clock == now
      ensures startedAt == now && handle == |old(queries)| && queries == old(queries) + [Query(now, None)]
    {
      Quiescent(now);
      startedAt, handle := now, |queries|;
      ghost var before := queries;
      ghost var after := queries + [Query(now, None)];
      forall m | m < now ensures Busy(after, m) <==> Busy(before, m) {
        OpenKeepsPast(before, now, m);
      }
      assert after[..|after| - 1] == before;
      if dbActiveCount == 0 {
        assert BusySet(after, origin, now) == BusySet(before, origin, now);
        dbActiveStartedAt := Some(now);
      } else {
        assert BusySet(after, origin, dbActiveStartedAt.value) == BusySet(before, origin, dbActiveStartedAt.value);
      }
      dbActiveCount := dbActiveCount + 1;
      queries, clock := after, now;
    }

    /** `endDbTiming`, called once for each begun query, in any order. */
    method EndDbTiming(startedAt: int, now: int, ghost handle: nat)
      requires Valid() && clock <= now
      requires handle < |queries| && queries[handle] == Query(startedAt, None)
      modifies this
      ensures Valid() && clock == now && queries == old(queries)[handle := Query(startedAt, Some(now))]
    {
      Quiescent(now);
      assert queries[handle] in queries;
      CloseOne(queries, handle, now);
      OpenCountsOne(queries, handle);
      ghost var before := queries;
      ghost var after := queries[handle := Query(startedAt, Some(now))];
      forall m | m < now ensures Busy(after, m) <==> Busy(before, m) {
        CloseKeepsPast(before, handle, now, m);
      }
      ghost var since := dbActiveStartedAt.value;
      BusyStretch(before, origin, since, now);
      assert BusySet(after, origin, now) == BusySet(before, origin, now);
      assert BusySet(after, origin, since) == BusySet(before, origin, since);

      var durationMs := if now - startedAt < 0 then 0 else now - startedAt;
      dbQuerySumMs := dbQuerySumMs + durationMs;
      if dbActiveCount > 0 {
        dbActiveCount := dbActiveCount - 1;
      }
      if dbActiveCount == 0 && dbActiveStartedAt.Some? {
        var openMs := now - dbActiveStartedAt.value;
        dbWallMs := dbWallMs + if openMs < 0 then 0 else openMs;
        dbActiveStartedAt := None;
      }
      queries, clock := after, now;
    }

    /** `finalizeDbWallMs`: the milliseconds before `endedAt` with at least one query in flight; at most the sum of the
        query durations and at most the elapsed time. */
    function FinalizeDbWallMs(endedAt: int): (wallMs: int)
      requires Valid() && clock <= endedAt
      reads this
      ensures wallMs == |BusySet(queries, origin, endedAt)|
      ensures wallMs <= TotalSum(queries, endedAt) && wallMs <= endedAt - origin
    {
      Quiescent(endedAt);
      BusyAtMostSum(queries, origin, endedAt);
      BusyAtMostElapsed(queries, origin, endedAt);
      if dbActiveCount > 0 && dbActiveStartedAt.Some? then
        BusyStretch(queries, origin, dbActiveStartedAt.value, endedAt);
        dbWallMs + if endedAt - dbActiveStartedAt.value < 0 then 0 else endedAt - dbActiveStartedAt.value
      else dbWallMs
    }
  }
}
