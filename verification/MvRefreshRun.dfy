/** One refresh run, `run_mv_refresh` of worker/app/jobs/mv_refresh.py, with nothing else going on: what it reports,
    what it leaves in the queue, and how many runs drain the queue. */
module MvRefreshRun {
  import opened Options
  import opened MvRefresh

  /** What happens to a view: the attempts update raises and ends the run, the refresh or a later statement raises, or
      all is well. */
  datatype Outcome = Aborts | Fails | Succeeds

  datatype Summary = Summary(pendingSeen: nat, attempted: nat, refreshed: nat, failed: nat, refreshedViews: seq<View>,
                             failedViews: seq<View>)

  type Outcomes = View -> Outcome

  ghost predicate NoAbort(pending: seq<View>, outcome: Outcomes) {
    forall v :: v in pending ==> !outcome(v).Aborts?
  }

  function Those(pending: seq<View>, outcome: Outcomes, wanted: Outcome): (r: seq<View>)
    ensures forall v :: v in r <==> v in pending && outcome(v) == wanted
  {
    if pending == [] then []
    else
      var n := |pending| - 1;
      assert pending == pending[..n] + [pending[n]];
      Those(pending[..n], outcome, wanted) + if outcome(pending[n]) == wanted then [pending[n]] else []
  }

  /** The views before the first that ends the run. */
  function Reached(pending: seq<View>, outcome: Outcomes): seq<View> {
    if pending == [] || outcome(pending[0]).Aborts? then [] else [pending[0]] + Reached(pending[1..], outcome)
  }

  /** The queue a run leaves: refreshed views gone, failed ones with one more attempt, others as they were. */
  function After(queue: Queue, pending: seq<View>, outcome: Outcomes): Queue {
    map v | v in queue && !(v in pending && outcome(v).Succeeds?) ::
      if v in pending && outcome(v).Fails? then queue[v].(attempts := queue[v].attempts + 1) else queue[v]
  }

  lemma {:induction false} TwoKinds(pending: seq<View>, outcome: Outcomes)
    requires NoAbort(pending, outcome)
    ensures |Those(pending, outcome, Succeeds)| + |Those(pending, outcome, Fails)| == |pending|
  {
    if pending != [] {
      var n := |pending| - 1;
      assert pending == pending[..n] + [pending[n]];
      assert pending[n] in pending;
      TwoKinds(pending[..n], outcome);
    }
  }

  lemma AfterOne(queue: Queue, pending: seq<View>, outcome: Outcomes, n: nat)
    requires n < |pending| && NoAbort(pending[..n + 1], outcome)
    requires forall i, j :: 0 <= i < j < |pending| ==> pending[i] != pending[j]
    ensures
      var v, before := pending[n], After(queue, pending[..n], outcome);
      After(queue, pending[..n + 1], outcome)
      == if outcome(v).Succeeds? then Removed(Attempted(before, v), v) else Attempted(before, v)
  {
    var v := pending[n];
    assert pending[..n + 1] == pending[..n] + [v];
    assert v in pending[..n + 1] && v !in pending[..n];
  }

  /** Where the loop stands after the first `n` views, none of which ends the run. */
  ghost predicate LoopAt(before: Queue, pending: seq<View>, outcome: Outcomes, n: nat, queue: Queue, s: Summary) {
    && n <= |pending| && NoAbort(pending[..n], outcome) && queue == After(before, pending[..n], outcome)
    && s.pendingSeen == |pending| && s.attempted == n
    && s.refreshedViews == Those(pending[..n], outcome, Succeeds) && s.refreshed == |s.refreshedViews|
    && s.failedViews == Those(pending[..n], outcome, Fails) && s.failed == |s.failedViews|
  }

  /** The queue after a view that does not end the run. */
  function Handled(queue: Queue, v: View, refreshed: bool): Queue {
    if refreshed then Removed(Attempted(queue, v), v) else Attempted(queue, v)
  }

  function Reported(s: Summary, v: View, refreshed: bool): Summary {
    if refreshed then s.(attempted := s.attempted + 1, refreshed := s.refreshed + 1,
                         refreshedViews := s.refreshedViews + [v])
    else s.(attempted := s.attempted + 1, failed := s.failed + 1, failedViews := s.failedViews + [v])
  }

  /** One view that does not end the run. */
  lemma LoopStep(before: Queue, pending: seq<View>, outcome: Outcomes, n: nat, queue: Queue, s: Summary,
                 queue': Queue, s': Summary)
    requires LoopAt(before, pending, outcome, n, queue, s) && n < |pending| && !outcome(pending[n]).Aborts?
    requires forall i, j :: 0 <= i < j < |pending| ==> pending[i] != pending[j]
    requires queue' == Handled(queue, pending[n], outcome(pending[n]).Succeeds?)
    requires s' == Reported(s, pending[n], outcome(pending[n]).Succeeds?)
    ensures LoopAt(before, pending, outcome, n + 1, queue', s')
  {
    var v := pending[n];
    assert pending[..n + 1] == pending[..n] + [v] && pending[..n + 1][..n] == pending[..n];
    AfterOne(before, pending, outcome, n);
  }

  lemma LoopStarts(queue: Queue, pending: seq<View>, outcome: Outcomes)
    ensures LoopAt(queue, pending, outcome, 0, queue, Summary(|pending|, 0, 0, 0, [], []))
  {
    assert After(queue, [], outcome) == queue;
  }

  /** The attempts update of view `n` raises. */
  lemma LoopAborts(before: Queue, pending: seq<View>, outcome: Outcomes, n: nat, queue: Queue, s: Summary)
    requires LoopAt(before, pending, outcome, n, queue, s) && n < |pending| && outcome(pending[n]).Aborts?
    ensures queue == After(before, Reached(pending, outcome), outcome) && !NoAbort(pending, outcome)
  {
    ReachedIs(pending, outcome, n);
  }

  /** The loop is through. */
  lemma LoopEnds(before: Queue, pending: seq<View>, outcome: Outcomes, queue: Queue, s: Summary)
    requires LoopAt(before, pending, outcome, |pending|, queue, s)
    ensures NoAbort(pending, outcome) && queue == After(before, Reached(pending, outcome), outcome)
    ensures s.refreshedViews == Those(pending, outcome, Succeeds) && s.failedViews == Those(pending, outcome, Fails)
    ensures s.attempted == |pending| == s.refreshed + s.failed
  {
    assert pending[..|pending|] == pending;
    ReachedAll(pending, outcome);
    TwoKinds(pending, outcome);
  }

  /** The queue table, and the loop over its pending rows. */
  class RefreshQueue {
    var queue: Queue

    constructor (queue: Queue)
      ensures this.queue == queue
    {
      this.queue := queue;
    }

    /** The body of the loop for a view whose attempts update does not raise. */
    method RefreshView(v: View, refreshed: bool, s: Summary) returns (s': Summary)
      modifies this
      ensures queue == Handled(old(queue), v, refreshed) && s' == Reported(s, v, refreshed)
    {
      s' := s.(attempted := s.attempted + 1);
      queue := Attempted(queue, v);
      if refreshed {
        queue := Removed(queue, v);
        s' := s'.(refreshed := s'.refreshed + 1, refreshedViews := s'.refreshedViews + [v]);
      } else {
        s' := s'.(failed := s'.failed + 1, failedViews := s'.failedViews + [v]);
      }
    }

    /** Every attempt is a refresh or a failure; a run that returns has attempted all it selected. A run that an
        attempts update ends has dealt with the views before that one, and reports nothing. */
    method RunMvRefresh(pending: seq<View>, outcome: Outcomes) returns (summary: Option<Summary>)
      requires forall i, j :: 0 <= i < j < |pending| ==> pending[i] != pending[j]
      modifies this
      ensures queue == After(old(queue), Reached(pending, outcome), outcome)
      ensures summary.Some? <==> NoAbort(pending, outcome)
      ensures summary.Some? ==>
                && summary.value.refreshedViews == Those(pending, outcome, Succeeds)
                && summary.value.failedViews == Those(pending, outcome, Fails)
                && summary.value.attempted == summary.value.pendingSeen == |pending|
                && summary.value.refreshed == |summary.value.refreshedViews|
                && summary.value.failed == |summary.value.failedViews|
                && summary.value.attempted == summary.value.refreshed + summary.value.failed
    {
      var s := Summary(|pending|, 0, 0, 0, [], []);
      var n := 0;
      LoopStarts(queue, pending, outcome);
      while n < |pending|
        invariant 0 <= n <= |pending| && LoopAt(old(queue), pending, outcome, n, queue, s)
      {
        var v := pending[n];
        if outcome(v).Aborts? {
          LoopAborts(old(queue), pending, outcome, n, queue, s);
          return None;
        }
        ghost var queueBefore, before := queue, s;
        s := RefreshView(v, outcome(v).Succeeds?, s);
        LoopStep(old(queue), pending, outcome, n, queueBefore, before, queue, s);
        n := n + 1;
      }
      LoopEnds(old(queue), pending, outcome, queue, s);
      summary := Some(s);
    }
  }

  lemma {:induction false} ReachedIs(pending: seq<View>, outcome: Outcomes, n: nat)
    requires n < |pending| && NoAbort(pending[..n], outcome) && outcome(pending[n]).Aborts?
    ensures Reached(pending, outcome) == pending[..n] && !NoAbort(pending, outcome)
  {
    if n > 0 {
      assert pending[0] in pending[..n];
      assert pending[..n] == [pending[0]] + pending[1..][..n - 1];
      ReachedIs(pending[1..], outcome, n - 1);
    }
  }

  lemma {:induction false} ReachedAll(pending: seq<View>, outcome: Outcomes)
    requires NoAbort(pending, outcome)
    ensures Reached(pending, outcome) == pending
  {
    if pending != [] {
      assert pending == [pending[0]] + pending[1..];
      ReachedAll(pending[1..], outcome);
    }
  }

  // ------------------------------------------------------------------------------- draining

  /** `max(1, min(max_views_per_run, 200))` */
  function Limit(configured: int): (limit: nat)
    ensures 1 <= limit <= 200
    ensures 1 <= configured <= 200 ==> limit == configured
    ensures (configured < 1 ==> limit == 1) && (configured > 200 ==> limit == 200)
  {
    if configured < 1 then 1 else if configured > 200 then 200 else configured
  }

  function Waiting(queue: Queue, dependent: set<View>): set<View> {
    set v | v in queue && v in dependent
  }

  /** The first of some queued views. */
  lemma {:induction false} First(queue: Queue, views: set<View>) returns (v: View)
    requires views != {} && views <= queue.Keys
    ensures v in views && forall w :: w in views ==> Before(queue, v, w)
    decreases |views|
  {
    var u :| u in views;
    v := u;
    if views != {u} {
      var w := First(queue, views - {u});
      v := if Before(queue, u, w) then u else w;
      forall k | k in views ensures Before(queue, v, k) {
        assert k != u ==> k in views - {u} && Before(queue, w, k);
      }
    }
  }

  /** There is always a selection to start a run with. */
  lemma {:induction false} SelectionExists(queue: Queue, dependent: set<View>, limit: nat) returns (pending: seq<View>)
    ensures Selected(queue, dependent, limit, pending)
  {
    pending := [];
    if limit > 0 {
      pending := SelectionExists(queue, dependent, limit - 1);
      var rest := set v | v in Waiting(queue, dependent) && v !in pending;
      if rest != {} {
        var v := First(queue, rest);
        assert v !in pending && |pending| == limit - 1;
        forall w | w in queue && w in dependent && w !in pending + [v]
          ensures forall p :: p in pending + [v] ==> Before(queue, p, w)
        {
          assert w in rest && w !in pending;
        }
        pending := pending + [v];
      } else {
        forall w | w in queue && w in dependent ensures w in pending {
          assert w in rest <==> w !in pending;
        }
      }
    }
  }

  /** Runs in which every refresh succeeds and nothing is enqueued. */
  ghost predicate Drains(queues: seq<Queue>, selections: seq<seq<View>>, dependent: set<View>, limit: nat) {
    && |queues| == |selections| + 1
    && forall i :: 0 <= i < |selections| ==>
         Selected(queues[i], dependent, limit, selections[i])
         && queues[i + 1] == After(queues[i], selections[i], v => Succeeds)
  }

  lemma DistinctCount(pending: seq<View>) returns (s: set<View>)
    requires forall i, j :: 0 <= i < j < |pending| ==> pending[i] != pending[j]
    ensures |s| == |pending| && forall v :: v in s <==> v in pending
  {
    if pending == [] {
      s := {};
    } else {
      s := DistinctCount(pending[1..]);
      assert pending == [pending[0]] + pending[1..];
      assert pending[0] !in s;
      s := s + {pending[0]};
    }
  }

  /** One run takes `limit` views off the queue, or all that are left, and the views that no table feeds stay. */
  lemma OneRun(queue: Queue, dependent: set<View>, limit: nat, pending: seq<View>)
    requires Selected(queue, dependent, limit, pending)
    ensures
      var after := After(queue, pending, v => Succeeds);
      var left := |Waiting(queue, dependent)| - limit;
      && |Waiting(after, dependent)| == (if left < 0 then 0 else left)
      && Waiting(after, dependent) <= Waiting(queue, dependent)
    ensures forall v :: v in queue && v !in dependent ==>
              v in After(queue, pending, v => Succeeds) && After(queue, pending, v => Succeeds)[v] == queue[v]
  {
    var waiting, after := Waiting(queue, dependent), After(queue, pending, v => Succeeds);
    var taken := DistinctCount(pending);
    assert Waiting(after, dependent) == waiting - taken;
    assert taken <= waiting;
    assert |waiting - taken| == |waiting| - |taken|;
    if |pending| < limit {
      assert waiting <= taken;
    }
  }

  /** After `n` such runs, `n * limit` fewer dependent views are waiting; so the queue is drained after exactly as many
      runs as it takes to cover it in steps of `limit`. */
  lemma {:induction false} DrainsInSteps(queues: seq<Queue>, selections: seq<seq<View>>, dependent: set<View>,
                                         limit: nat, n: nat)
    requires Drains(queues, selections, dependent, limit) && n <= |selections|
    ensures
      var left := |Waiting(queues[0], dependent)| - n * limit;
      |Waiting(queues[n], dependent)| == if left < 0 then 0 else left
  {
    if n > 0 {
      DrainsInSteps(queues, selections, dependent, limit, n - 1);
      OneRun(queues[n - 1], dependent, limit, selections[n - 1]);
      assert n * limit == (n - 1) * limit + limit;
    }
  }

  /** ceil(a / b) */
  function CeilDiv(a: nat, b: nat): nat
    requires b > 0
  {
    (a + b - 1) / b
  }

  lemma CeilDivIs(a: nat, b: nat, n: nat)
    requires b > 0
    ensures a <= n * b <==> CeilDiv(a, b) <= n
  {
    var q := CeilDiv(a, b);
    assert q * b <= a + b - 1 < q * b + b;
    if n < q {
      assert n * b <= (q - 1) * b;
    } else {
      assert q * b <= n * b;
    }
  }

  /** With no new marks and no failures, the queue of dependent views is empty after ceil(size / limit) runs and not
      before. */
  lemma DrainedIff(queues: seq<Queue>, selections: seq<seq<View>>, dependent: set<View>, configured: int, n: nat)
    requires Drains(queues, selections, dependent, Limit(configured)) && n <= |selections|
    ensures Waiting(queues[n], dependent) == {}
            <==> CeilDiv(|Waiting(queues[0], dependent)|, Limit(configured)) <= n
  {
    DrainsInSteps(queues, selections, dependent, Limit(configured), n);
    CeilDivIs(|Waiting(queues[0], dependent)|, Limit(configured), n);
  }
}
