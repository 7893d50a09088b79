/** What the queue's rows, the open transactions and the refresh runs say about what has happened. */
module MvRefreshHistory {
  import opened MvRefresh

  // ------------------------------------------------------------------------------- the selection

  /** Dirty for longer, or as long and first by name. */
  predicate Precedes(queue: Queue, v: View, w: View)
    requires v in queue && w in queue
  {
    if queue[v].dirtySince == queue[w].dirtySince then v < w else queue[v].dirtySince < queue[w].dirtySince
  }

  /** The query selects queued views that some view depends on, dirty longest first, and leaves one out only if `limit`
      others precede it. */
  lemma SelectedIff(queue: Queue, dependent: set<View>, limit: nat, pending: seq<View>)
    ensures Selected(queue, dependent, limit, pending)
            <==> && (forall v :: v in pending ==> v in queue && v in dependent) && |pending| <= limit
                 && (forall i, j :: 0 <= i < j < |pending| ==> Precedes(queue, pending[i], pending[j]))
                 && forall w :: w in queue && w in dependent && w !in pending ==>
                      |pending| == limit && forall v :: v in pending ==> Precedes(queue, v, w)
  {
  }

  // ------------------------------------------------------------------------------- rows

  predicate Marks(s: State, e: Step, v: View) {
    e.Mark? && e.x in s.workers && s.workers[e.x].pending != [] && s.workers[e.x].pending[0] == v
  }

  function MarkCount(states: seq<State>, steps: seq<Step>, m: nat, n: nat, v: View): nat
    requires m <= n <= |steps| < |states|
  {
    if m == n then 0
    else MarkCount(states, steps, m, n - 1, v) + if Marks(states[n - 1], steps[n - 1], v) then 1 else 0
  }

  /** A row that is new is dirty since that moment and was not attempted; one that was there keeps its time, and gains
      an attempt exactly when a run marks it. */
  lemma RowStep(s: State, e: Step, v: View)
    requires Can(s, e) && v in Do(s, e).queue
    ensures
      var row := Do(s, e).queue[v];
      if v in s.queue then
        row.dirtySince == s.queue[v].dirtySince && row.attempts == s.queue[v].attempts + if Marks(s, e, v) then 1 else 0
      else row.dirtySince == s.now && row.attempts == 0
  {
  }

  /** Over every run: while a view stays in the queue its row keeps its time and counts the attempts. */
  lemma {:induction false} RowCountsAttempts(states: seq<State>, steps: seq<Step>, m: nat, n: nat, v: View)
    requires IsRun(states, steps) && m <= n <= |steps|
    requires forall i :: m <= i <= n ==> v in states[i].queue
    ensures states[n].queue[v].dirtySince == states[m].queue[v].dirtySince
    ensures states[n].queue[v].attempts == states[m].queue[v].attempts + MarkCount(states, steps, m, n, v)
  {
    if m < n {
      RowCountsAttempts(states, steps, m, n - 1, v);
      assert Can(states[n - 1], steps[n - 1]) && states[n] == Do(states[n - 1], steps[n - 1]);
      RowStep(states[n - 1], steps[n - 1], v);
    }
  }

  // ------------------------------------------------------------------------------- transactions and jobs

  /** A transaction stays open until it is committed or aborted, and gathers what its own statements change; what others
      do leaves it alone. */
  lemma WriteStep(s: State, e: Step, w: Id)
    requires Can(s, e)
    ensures
      var t, own := Do(s, e), e.Trigger? && e.w == w;
      && (w in t.writes <==> own || (w in s.writes && e != CommitWrite(w) && e != AbortWrite(w)))
      && (w in t.writes && !own ==> t.writes[w] == s.writes[w])
      && (own ==> forall v ::
            && (v in t.writes[w].views <==> v in e.views || (w in s.writes && v in s.writes[w].views))
            && (v in t.writes[w].inserting
                <==> (v in e.views && v !in s.queue) || (w in s.writes && v in s.writes[w].inserting)))
  {
  }

  /** A job owes what it has changed until it enqueues, or its enqueue is dropped. */
  lemma OwedByStep(s: State, e: Step, w: Id)
    requires Can(s, e)
    ensures
      var t, own := Do(s, e), e.Change? && e.w == w;
      && (w in t.owed <==> own || (w in s.owed && e != Enqueue(w) && e != Drop(w)))
      && (w in t.owed && !own ==> t.owed[w] == s.owed[w])
      && (own ==> forall v :: v in t.owed[w] <==> v in e.views || (w in s.owed && v in s.owed[w]))
  {
  }

  // ------------------------------------------------------------------------------- refresh runs

  /** The run has dealt with the first views of its selection, and the others are pending. */
  ghost predicate WorksOff(w: Worker, selection: seq<View>) {
    var k := |w.refreshedViews| + |w.failedViews|;
    && k <= |selection| && w.pending == selection[k..]
    && multiset(w.refreshedViews) + multiset(w.failedViews) == multiset(selection[..k])
  }

  predicate IsOf(e: Step, x: Id) {
    && (e.Start? || e.Mark? || e.Refresh? || e.Log? || e.Delete? || e.Fail? || e.Stop?)
    && e.x == x
  }

  lemma OtherRunsStay(s: State, e: Step, x: Id)
    requires Can(s, e) && !IsOf(e, x)
    ensures x in Do(s, e).workers <==> x in s.workers
    ensures x in s.workers ==> Do(s, e).workers[x] == s.workers[x]
  {
  }

  lemma OneMoreDone(done: seq<View>, more: seq<View>, done': seq<View>, more': seq<View>, selection: seq<View>, k: nat)
    requires k < |selection| && multiset(done) + multiset(more) == multiset(selection[..k])
    requires || (done' == done + [selection[k]] && more' == more) || (more' == more + [selection[k]] && done' == done)
    ensures multiset(done') + multiset(more') == multiset(selection[..k + 1])
  {
    assert selection[..k + 1] == selection[..k] + [selection[k]];
    assert multiset(selection[..k + 1]) == multiset(selection[..k]) + multiset{selection[k]};
  }

  lemma Handles(w: Worker, next: Worker, selection: seq<View>)
    requires WorksOff(w, selection) && w.pending != [] && next.pending == w.pending[1..]
    requires || (next.refreshedViews == w.refreshedViews + [w.pending[0]] && next.failedViews == w.failedViews)
             || (next.failedViews == w.failedViews + [w.pending[0]] && next.refreshedViews == w.refreshedViews)
    ensures WorksOff(next, selection)
  {
    var k := |w.refreshedViews| + |w.failedViews|;
    assert w.pending[0] == selection[k];
    OneMoreDone(w.refreshedViews, w.failedViews, next.refreshedViews, next.failedViews, selection, k);
  }

  lemma OwnStepWorksOff(s: State, e: Step, x: Id, selection: seq<View>)
    requires Can(s, e) && IsOf(e, x) && !e.Start? && !e.Stop? && WorksOff(s.workers[x], selection)
    ensures x in Do(s, e).workers && WorksOff(Do(s, e).workers[x], selection)
  {
    if e.Delete? || e.Fail? {
      Handles(s.workers[x], Do(s, e).workers[x], selection);
    }
  }

  /** Step `i` started run `x`, on the selection of that moment, which is where it stands now. */
  ghost predicate StartedAt(states: seq<State>, steps: seq<Step>, i: nat, n: nat, x: Id, now: Worker)
    requires n <= |steps| < |states|
  {
    && i < n && steps[i].Start? && steps[i].x == x
    && Selected(states[i].queue, states[i].dependent, steps[i].limit, steps[i].pending)
    && WorksOff(now, steps[i].pending)
  }

  ghost predicate Started(states: seq<State>, steps: seq<Step>, n: nat, x: Id, now: Worker)
    requires n <= |steps| < |states|
  {
    exists i :: 0 <= i < n && StartedAt(states, steps, i, n, x, now)
  }

  lemma StartsRun(states: seq<State>, steps: seq<Step>, n: nat, x: Id)
    requires n < |steps| < |states| && Can(states[n], steps[n]) && steps[n].Start? && steps[n].x == x
    ensures Started(states, steps, n + 1, x, Do(states[n], steps[n]).workers[x])
  {
    var selection := steps[n].pending;
    assert selection[..0] == [] && selection[0..] == selection;
    assert StartedAt(states, steps, n, n + 1, x, Do(states[n], steps[n]).workers[x]);
  }

  /** Over every run of the machine: a refresh run that is under way works off, in their order, the views that the query
      selected when it started; each it is done with it has refreshed or failed. */
  lemma {:induction false} RunsWorkOffSelections(states: seq<State>, steps: seq<Step>, n: nat, x: Id)
    requires IsRun(states, steps) && n <= |steps| && x in states[n].workers
    ensures Started(states, steps, n, x, states[n].workers[x])
    decreases n, 1
  {
    assert n > 0;
    var s, e := states[n - 1], steps[n - 1];
    assert Can(s, e) && states[n] == Do(s, e);
    if e.Start? && e.x == x {
      StartsRun(states, steps, n - 1, x);
    } else {
      RunGoesOn(states, steps, n - 1, x);
    }
  }

  lemma {:induction false} RunGoesOn(states: seq<State>, steps: seq<Step>, n: nat, x: Id)
    requires IsRun(states, steps) && n < |steps| && x in states[n + 1].workers && !(steps[n].Start? && steps[n].x == x)
    ensures Started(states, steps, n + 1, x, states[n + 1].workers[x])
    decreases n + 1, 0
  {
    var s, e := states[n], steps[n];
    assert Can(s, e) && states[n + 1] == Do(s, e);
    if !IsOf(e, x) {
      OtherRunsStay(s, e, x);
    }
    RunsWorkOffSelections(states, steps, n, x);
    var i :| 0 <= i < n && StartedAt(states, steps, i, n, x, s.workers[x]);
    if IsOf(e, x) {
      OwnStepWorksOff(s, e, x, steps[i].pending);
    }
    assert StartedAt(states, steps, i, n + 1, x, states[n + 1].workers[x]);
  }
}
