/** The queue of materialized views to refresh, worker/app/jobs/mv_refresh.py: writers mark views dirty while any number
    of refresh runs work the queue off, one statement at a time. Two kinds of writer do the marking: triggers, inside
    the writing transaction, and jobs, in a transaction of their own after their writes. */
module MvRefresh {
  type View = nat          // numbered in the order of their names
  type Time = int
  type Id = nat

  datatype Entry = Entry(dirtySince: Time, attempts: nat)
  type Queue = map<View, Entry>

  // ------------------------------------------------------------------------------- statements

  /** INSERT … ON CONFLICT DO NOTHING */
  function Enqueued(queue: Queue, views: set<View>, at: Time): Queue {
    map v | v in queue.Keys + views :: if v in queue then queue[v] else Entry(at, 0)
  }

  /** UPDATE … attempts + 1 */
  function Attempted(queue: Queue, v: View): Queue {
    if v in queue then queue[v := queue[v].(attempts := queue[v].attempts + 1)] else queue
  }

  /** DELETE */
  function Removed(queue: Queue, v: View): Queue {
    map k | k in queue && k != v :: queue[k]
  }

  /** ORDER BY dirty_since, mv_name */
  predicate Before(queue: Queue, v: View, w: View)
    requires v in queue && w in queue
  {
    queue[v].dirtySince < queue[w].dirtySince || (queue[v].dirtySince == queue[w].dirtySince && v <= w)
  }

  predicate Ordered(queue: Queue, pending: seq<View>)
    requires forall v :: v in pending ==> v in queue
  {
    forall i, j :: 0 <= i < j < |pending| ==> pending[i] != pending[j] && Before(queue, pending[i], pending[j])
  }

  /** The rows the query returns: the first `limit` of the queued views that depend on some table. */
  ghost predicate Selected(queue: Queue, dependent: set<View>, limit: nat, pending: seq<View>) {
    && (forall v :: v in pending ==> v in queue && v in dependent)
    && Ordered(queue, pending) && |pending| <= limit
    && forall w :: w in queue && w in dependent && w !in pending ==>
         |pending| == limit && forall v :: v in pending ==> Before(queue, v, w)
  }

  // ------------------------------------------------------------------------------- the machine

  /** What a run has done with the first view in `pending`. */
  datatype Progress = NotAttempted | Marked | Refreshed | Logged

  datatype Worker = Worker(pending: seq<View>, progress: Progress, attempted: nat, refreshedViews: seq<View>,
                           failedViews: seq<View>)

  /** An open transaction: the views its tables feed, and those of them whose row its triggers insert. A view that was
      queued already when the trigger looked is not inserted (DO NOTHING). */
  datatype Write = Write(views: set<View>, inserting: set<View>)

  /** `stale` is what the queue is for: the views older than some table they depend on. `owed` holds, for each job, the
      views it has changed tables of and not enqueued yet. */
  datatype State = State(now: Time, stale: set<View>, queue: Queue, dependent: set<View>, writes: map<Id, Write>,
                         owed: map<Id, set<View>>, workers: map<Id, Worker>)

  datatype Step =
    | Tick(to: Time)
    | Trigger(w: Id, views: set<View>)      // a statement of transaction `w` on tables with triggers
    | CommitWrite(w: Id)
    | AbortWrite(w: Id)
    | Change(w: Id, views: set<View>)       // job `w` commits a change to tables, to be enqueued later
    | Enqueue(w: Id)
    | Drop(w: Id)                           // the enqueue of job `w` raises, which is swallowed, or the job dies
    | Start(x: Id, limit: nat, pending: seq<View>)
    | Mark(x: Id)
    | Refresh(x: Id)
    | Log(x: Id)
    | Delete(x: Id)
    | Fail(x: Id)                           // the refresh or a later statement for this view raises
    | Stop(x: Id)                           // the run returns, or dies at any statement

  ghost predicate BeingInserted(s: State, w: Id, v: View) {
    exists y :: y != w && y in s.writes && v in s.writes[y].inserting
  }

  function Views<T>(m: map<Id, T>, w: Id, none: T): T {
    if w in m then m[w] else none
  }

  predicate At(s: State, x: Id, p: Progress) {
    x in s.workers && s.workers[x].pending != [] && s.workers[x].progress == p
  }

  ghost predicate Can(s: State, e: Step) {
    match e
    case Tick(to) => s.now <= to
    // an insert waits for another transaction that is inserting the same row
    case Trigger(w, views) =>
      views <= s.dependent && forall v :: v in views && v !in s.queue ==> !BeingInserted(s, w, v)
    case CommitWrite(w) => w in s.writes
    case AbortWrite(w) => w in s.writes
    case Change(_, views) => views <= s.dependent
    case Enqueue(w) => w in s.owed && forall v, y :: v in s.owed[w] && y in s.writes ==> v !in s.writes[y].inserting
    case Drop(w) => w in s.owed
    case Start(x, limit, pending) => x !in s.workers && Selected(s.queue, s.dependent, limit, pending)
    case Mark(x) => At(s, x, NotAttempted)
    case Refresh(x) => At(s, x, Marked)
    case Log(x) => At(s, x, Refreshed)
    case Delete(x) => At(s, x, Logged)
    case Fail(x) => x in s.workers && s.workers[x].pending != [] && !s.workers[x].progress.NotAttempted?
    case Stop(x) => x in s.workers
  }

  function Next(w: Worker): Worker
    requires w.pending != []
  {
    w.(pending := w.pending[1..], progress := NotAttempted)
  }

  ghost function Do(s: State, e: Step): State
    requires Can(s, e)
  {
    match e
    case Tick(to) => s.(now := to)
    case Trigger(w, views) =>
      var write := Views(s.writes, w, Write({}, {}));
      s.(writes := s.writes[w := Write(write.views + views, write.inserting + (views - s.queue.Keys))])
    case CommitWrite(w) =>
      s.(stale := s.stale + s.writes[w].views, queue := Enqueued(s.queue, s.writes[w].inserting, s.now),
         writes := map y | y in s.writes && y != w :: s.writes[y])
    case AbortWrite(w) => s.(writes := map y | y in s.writes && y != w :: s.writes[y])
    case Change(w, views) => s.(stale := s.stale + views, owed := s.owed[w := Views(s.owed, w, {}) + views])
    case Enqueue(w) =>
      s.(queue := Enqueued(s.queue, s.owed[w], s.now), owed := map y | y in s.owed && y != w :: s.owed[y])
    case Drop(w) => s.(owed := map y | y in s.owed && y != w :: s.owed[y])
    case Start(x, _, pending) => s.(workers := s.workers[x := Worker(pending, NotAttempted, 0, [], [])])
    case Mark(x) =>
      var w := s.workers[x];
      s.(queue := Attempted(s.queue, w.pending[0]),
         workers := s.workers[x := w.(progress := Marked, attempted := w.attempted + 1)])
    case Refresh(x) =>
      var w := s.workers[x];
      s.(stale := s.stale - {w.pending[0]}, workers := s.workers[x := w.(progress := Refreshed)])
    case Log(x) => s.(workers := s.workers[x := s.workers[x].(progress := Logged)])
    case Delete(x) =>
      var w := s.workers[x];
      s.(queue := Removed(s.queue, w.pending[0]),
         workers := s.workers[x := Next(w).(refreshedViews := w.refreshedViews + [w.pending[0]])])
    case Fail(x) =>
      var w := s.workers[x];
      s.(workers := s.workers[x := Next(w).(failedViews := w.failedViews + [w.pending[0]])])
    case Stop(x) => s.(workers := map y | y in s.workers && y != x :: s.workers[y])
  }

  ghost predicate IsRun(states: seq<State>, steps: seq<Step>) {
    && |states| == |steps| + 1
    && states[0].workers == map[] && states[0].writes == map[] && states[0].owed == map[]
    && forall i :: 0 <= i < |steps| ==> Can(states[i], steps[i]) && states[i + 1] == Do(states[i], steps[i])
  }

  // ------------------------------------------------------------------------------- exactly when a mark is lost

  ghost predicate Owed(s: State, v: View) {
    exists w :: w in s.owed && v in s.owed[w]
  }

  /** A stale view is queued, or some job still owes its enqueue. */
  ghost predicate Covered(s: State, v: View) {
    v in s.stale ==> v in s.queue || Owed(s, v)
  }

  predicate Changes(s: State, e: Step, v: View) {
    || (e.Change? && v in e.views)
    || (e.CommitWrite? && e.w in s.writes && v in s.writes[e.w].views)
  }

  predicate Refreshes(s: State, e: Step, v: View) {
    e.Refresh? && e.x in s.workers && s.workers[e.x].pending != [] && s.workers[e.x].pending[0] == v
  }

  predicate Deletes(s: State, e: Step, v: View) {
    e.Delete? && e.x in s.workers && s.workers[e.x].pending != [] && s.workers[e.x].pending[0] == v
  }

  predicate Enqueues(s: State, e: Step, v: View) {
    e.Enqueue? && e.w in s.owed && v in s.owed[e.w]
  }

  predicate Drops(s: State, e: Step, v: View) {
    e.Drop? && e.w in s.owed && v in s.owed[e.w]
  }

  /** The step refreshes the view, or sees to it that it is queued or owed. */
  predicate Restores(s: State, e: Step, v: View) {
    || Refreshes(s, e, v) || Enqueues(s, e, v) || (e.Change? && v in e.views)
    || (e.CommitWrite? && e.w in s.writes && v in s.writes[e.w].inserting)
  }

  /** The three ways in which a mark is lost: a stale view that nobody owes is deleted; the last enqueue owed for a
      stale view that is not queued is dropped; a transaction commits whose trigger found the view queued, but it no
      longer is and nobody owes it. */
  ghost predicate LosesMark(s: State, e: Step, v: View) {
    || (Deletes(s, e, v) && v in s.stale && !Owed(s, v))
    || (Drops(s, e, v) && v in s.stale && v !in s.queue && forall w :: w in s.owed && v in s.owed[w] ==> w == e.w)
    || (e.CommitWrite? && Changes(s, e, v) && v !in s.writes[e.w].inserting && v !in s.queue && !Owed(s, v))
  }

  lemma OwedStep(s: State, e: Step, v: View)
    requires Can(s, e)
    ensures Owed(Do(s, e), v)
            <==> || (e.Change? && v in e.views)
                 || exists w :: w in s.owed && v in s.owed[w] && e != Enqueue(w) && e != Drop(w)
  {
    var t := Do(s, e);
    if e.Change? && v in e.views {
      assert v in t.owed[e.w];
    }
    if w :| w in s.owed && v in s.owed[w] && e != Enqueue(w) && e != Drop(w) {
      assert w in t.owed && v in t.owed[w];
    }
    if w :| w in t.owed && v in t.owed[w] {
      assert (e.Change? && v in e.views) || (w in s.owed && v in s.owed[w]);
    }
  }

  lemma StaleStep(s: State, e: Step, v: View)
    requires Can(s, e)
    ensures v in Do(s, e).stale <==> Changes(s, e, v) || (v in s.stale && !Refreshes(s, e, v))
  {
  }

  lemma QueueStep(s: State, e: Step, v: View)
    requires Can(s, e)
    ensures v in Do(s, e).queue
            <==> || Enqueues(s, e, v) || (e.CommitWrite? && v in s.writes[e.w].inserting)
                 || (v in s.queue && !Deletes(s, e, v))
  {
  }

  /** A step leaves a view covered exactly when it restores the mark, or the view was covered and the step loses
      nothing. */
  lemma CoveredStep(s: State, e: Step, v: View)
    requires Can(s, e)
    ensures Covered(Do(s, e), v) <==> Restores(s, e, v) || (Covered(s, v) && !LosesMark(s, e, v))
  {
    OwedStep(s, e, v);
    StaleStep(s, e, v);
    QueueStep(s, e, v);
  }

  ghost predicate NoRestore(states: seq<State>, steps: seq<Step>, from: nat, to: nat, v: View)
    requires to <= |steps| < |states|
  {
    forall i :: from <= i < to ==> !Restores(states[i], steps[i], v)
  }

  /** Step `k` loses the mark, and no step before `n` restores it. */
  ghost predicate LostAt(states: seq<State>, steps: seq<Step>, k: nat, n: nat, v: View)
    requires n <= |steps| < |states|
  {
    k < n && LosesMark(states[k], steps[k], v) && !Restores(states[k], steps[k], v)
    && NoRestore(states, steps, k + 1, n, v)
  }

  ghost predicate Lost(states: seq<State>, steps: seq<Step>, n: nat, v: View)
    requires n <= |steps| < |states|
  {
    exists k :: 0 <= k < n && LostAt(states, steps, k, n, v)
  }

  lemma LostStep(states: seq<State>, steps: seq<Step>, n: nat, v: View)
    requires n < |steps| < |states|
    ensures Lost(states, steps, n + 1, v)
            <==> !Restores(states[n], steps[n], v)
                 && (Lost(states, steps, n, v) || LosesMark(states[n], steps[n], v))
  {
    if !Restores(states[n], steps[n], v) {
      if LosesMark(states[n], steps[n], v) {
        assert LostAt(states, steps, n, n + 1, v);
      } else if Lost(states, steps, n, v) {
        var k :| 0 <= k < n && LostAt(states, steps, k, n, v);
        assert LostAt(states, steps, k, n + 1, v);
      }
    }
    if Lost(states, steps, n + 1, v) {
      var k :| 0 <= k < n + 1 && LostAt(states, steps, k, n + 1, v);
      if k < n {
        assert !Restores(states[n], steps[n], v) && LostAt(states, steps, k, n, v);
      }
    }
  }

  /** Over every run, whatever fails: a view that was covered at the start is stale with nothing to say so exactly when
      its mark was lost in one of the three ways and has not been restored since. */
  lemma {:induction false} MarkLostIff(states: seq<State>, steps: seq<Step>, n: nat, v: View)
    requires IsRun(states, steps) && Covered(states[0], v) && n <= |steps|
    ensures !Covered(states[n], v) <==> Lost(states, steps, n, v)
  {
    if n > 0 {
      MarkLostIff(states, steps, n - 1, v);
      assert Can(states[n - 1], steps[n - 1]) && states[n] == Do(states[n - 1], steps[n - 1]);
      CoveredStep(states[n - 1], steps[n - 1], v);
      LostStep(states, steps, n - 1, v);
    }
  }

  // ------------------------------------------------------------------------------- when none can be

  /** Between the refresh of `v` and its deletion from the queue. */
  predicate Between(w: Worker, v: View) {
    w.pending != [] && w.pending[0] == v && (w.progress.Refreshed? || w.progress.Logged?)
  }

  ghost predicate AnyBetween(s: State, v: View) {
    exists x :: x in s.workers && Between(s.workers[x], v)
  }

  ghost predicate BeingWritten(s: State, v: View) {
    exists w :: w in s.writes && v in s.writes[w].views
  }

  predicate CommitsWrite(s: State, e: Step, v: View) {
    e.CommitWrite? && e.w in s.writes && v in s.writes[e.w].views
  }

  /** The view is neither enqueued nor changed by a transaction with triggers between its refresh and its deletion, no
      transaction that changes it is open when it is deleted, and its enqueue is not dropped. */
  ghost predicate QuietStep(s: State, e: Step, v: View) {
    && (Enqueues(s, e, v) || CommitsWrite(s, e, v) ==> !AnyBetween(s, v))
    && (Deletes(s, e, v) ==> !BeingWritten(s, v))
    && !Drops(s, e, v)
  }

  ghost predicate Quiet(states: seq<State>, steps: seq<Step>, v: View)
    requires |steps| < |states|
  {
    forall i :: 0 <= i < |steps| ==> QuietStep(states[i], steps[i], v)
  }

  /** Between its refresh and its deletion a view is not stale, unless its enqueue is still owed. */
  ghost predicate FreshBetween(s: State, v: View) {
    AnyBetween(s, v) && v in s.stale ==> Owed(s, v)
  }

  /** An open transaction that changes a view inserts its row, or the row is there. */
  ghost predicate WritesMark(s: State, v: View) {
    forall w :: w in s.writes && v in s.writes[w].views ==> v in s.writes[w].inserting || v in s.queue
  }

  lemma WritesStillMark(s: State, e: Step, v: View)
    requires WritesMark(s, v) && Can(s, e) && QuietStep(s, e, v)
    ensures WritesMark(Do(s, e), v)
  {
    var t := Do(s, e);
    QueueStep(s, e, v);
    forall w | w in t.writes && v in t.writes[w].views ensures v in t.writes[w].inserting || v in t.queue {
      if w in s.writes && v in s.writes[w].views {
        assert Deletes(s, e, v) ==> BeingWritten(s, v);
      }
    }
  }

  lemma StaysFreshBetween(s: State, e: Step, v: View)
    requires FreshBetween(s, v) && Can(s, e) && QuietStep(s, e, v)
    ensures FreshBetween(Do(s, e), v)
  {
    var t := Do(s, e);
    OwedStep(s, e, v);
    StaleStep(s, e, v);
    if AnyBetween(t, v) {
      var x :| x in t.workers && Between(t.workers[x], v);
      assert x in s.workers && (Between(s.workers[x], v) || (e == Refresh(x) && Refreshes(s, e, v)));
      assert Between(s.workers[x], v) ==> AnyBetween(s, v);
    }
  }

  lemma QuietLosesNothing(s: State, e: Step, v: View)
    requires FreshBetween(s, v) && WritesMark(s, v) && Can(s, e) && QuietStep(s, e, v)
    ensures !LosesMark(s, e, v)
  {
    if Deletes(s, e, v) {
      assert Between(s.workers[e.x], v) && AnyBetween(s, v);
    }
  }

  lemma StepKeepsMarks(s: State, e: Step, v: View)
    requires Covered(s, v) && FreshBetween(s, v) && WritesMark(s, v) && Can(s, e) && QuietStep(s, e, v)
    ensures Covered(Do(s, e), v) && FreshBetween(Do(s, e), v) && WritesMark(Do(s, e), v)
  {
    QuietLosesNothing(s, e, v);
    CoveredStep(s, e, v);
    StaysFreshBetween(s, e, v);
    WritesStillMark(s, e, v);
  }

  /** Over every run that is quiet for a view, the view is queued or owed whenever it is stale: whatever fails in
      refresh runs, wherever one dies, and whatever happens to other views. */
  lemma {:induction false} NoMarkIsLost(states: seq<State>, steps: seq<Step>, n: nat, v: View)
    requires IsRun(states, steps) && Covered(states[0], v) && Quiet(states, steps, v) && n <= |steps|
    ensures Covered(states[n], v) && FreshBetween(states[n], v) && WritesMark(states[n], v)
  {
    if n > 0 {
      NoMarkIsLost(states, steps, n - 1, v);
      assert QuietStep(states[n - 1], steps[n - 1], v);
      StepKeepsMarks(states[n - 1], steps[n - 1], v);
    }
  }

  // ------------------------------------------------------------------------------- what makes a view stale again

  ghost predicate NoRefresh(states: seq<State>, steps: seq<Step>, from: nat, to: nat, v: View)
    requires to <= |steps| < |states|
  {
    forall i :: from <= i < to ==> !Refreshes(states[i], steps[i], v)
  }

  /** Changed at step `i` and not refreshed again before step `n`. */
  ghost predicate ChangedAt(states: seq<State>, steps: seq<Step>, i: nat, n: nat, v: View)
    requires n <= |steps| < |states|
  {
    i < n && Changes(states[i], steps[i], v) && NoRefresh(states, steps, i + 1, n, v)
  }

  /** A view that a refresh made current is stale at a later step exactly when a table was changed in between and the
      view has not been refreshed since. */
  lemma {:induction false} StaleIffChangedSince(states: seq<State>, steps: seq<Step>, m: nat, n: nat, v: View)
    requires IsRun(states, steps) && m <= n <= |steps| && v !in states[m].stale
    ensures v in states[n].stale <==> exists i :: m <= i < n && ChangedAt(states, steps, i, n, v)
  {
    if m < n {
      var s, e := states[n - 1], steps[n - 1];
      assert Can(s, e) && states[n] == Do(s, e);
      StaleIffChangedSince(states, steps, m, n - 1, v);
      StaleStep(s, e, v);
      if Changes(s, e, v) {
        assert ChangedAt(states, steps, n - 1, n, v);
      } else if v in states[n].stale {
        var i :| m <= i < n - 1 && ChangedAt(states, steps, i, n - 1, v);
        assert ChangedAt(states, steps, i, n, v);
      }
      forall i | m <= i < n && ChangedAt(states, steps, i, n, v) ensures v in states[n].stale {
        if i < n - 1 {
          assert ChangedAt(states, steps, i, n - 1, v);
          assert !Refreshes(states[n - 1], steps[n - 1], v);
        }
      }
    }
  }

  // ------------------------------------------------------------------------------- three runs that lose a mark

  /** One dependent view, queued, and nothing going on. */
  predicate Idle(s: State, v: View) {
    s.workers == map[] && s.writes == map[] && s.owed == map[] && s.dependent == {v}
  }

  /** A dropped enqueue: the view stays stale with nothing to say so. */
  lemma DroppedEnqueueIsLost(s: State, w: Id, v: View) returns (states: seq<State>, steps: seq<Step>)
    requires Idle(s, v) && v !in s.queue
    ensures IsRun(states, steps) && states[0] == s && |steps| == 2 && Drops(states[1], steps[1], v)
    ensures v in states[2].stale && !Covered(states[2], v)
  {
    steps := [Change(w, {v}), Drop(w)];
    var s1 := Do(s, steps[0]);
    states := [s, s1, Do(s1, steps[1])];
    OwedStep(s1, steps[1], v);
  }

  lemma Continue(states: seq<State>, steps: seq<Step>, e: Step) returns (states': seq<State>, steps': seq<Step>)
    requires IsRun(states, steps) && Can(states[|steps|], e)
    ensures IsRun(states', steps') && steps' == steps + [e] && states' == states + [Do(states[|steps|], e)]
  {
    steps', states' := steps + [e], states + [Do(states[|steps|], e)];
  }

  lemma UntilRefreshed(states: seq<State>, steps: seq<Step>, x: Id, v: View)
    returns (states': seq<State>, steps': seq<Step>)
    requires IsRun(states, steps)
    requires
      var s := states[|steps|];
      x !in s.workers && s.dependent == {v} && v in s.queue
    ensures IsRun(states', steps') && states <= states' && steps <= steps' && |steps'| == |steps| + 3
    ensures
      var s, t := states[|steps|], states'[|steps'|];
      && v in t.queue && v !in t.stale && t.owed == s.owed && t.writes == s.writes && t.dependent == {v}
      && x in t.workers && t.workers[x] == Worker([v], Refreshed, 1, [], [])
  {
    assert Selected(states[|steps|].queue, {v}, 1, [v]);
    states', steps' := Continue(states, steps, Start(x, 1, [v]));
    states', steps' := Continue(states', steps', Mark(x));
    states', steps' := Continue(states', steps', Refresh(x));
  }

  lemma UntilDeleted(states: seq<State>, steps: seq<Step>, x: Id, v: View)
    returns (states': seq<State>, steps': seq<Step>)
    requires IsRun(states, steps)
    requires x in states[|steps|].workers && states[|steps|].workers[x] == Worker([v], Refreshed, 1, [], [])
    ensures IsRun(states', steps') && states <= states' && steps <= steps' && |steps'| == |steps| + 2
    ensures Deletes(states'[|steps| + 1], steps'[|steps| + 1], v)
    ensures
      var s, t := states[|steps|], states'[|steps'|];
      && states'[|steps| + 1].writes == t.writes == s.writes
      && v !in t.queue && t.stale == s.stale && t.owed == s.owed
  {
    states', steps' := Continue(states, steps, Log(x));
    states', steps' := Continue(states', steps', Delete(x));
  }

  lemma ChangedAndEnqueued(states: seq<State>, steps: seq<Step>, w: Id, v: View)
    returns (states': seq<State>, steps': seq<Step>)
    requires IsRun(states, steps)
    requires
      var s := states[|steps|];
      s.owed == map[] && s.writes == map[] && s.dependent == {v}
    ensures IsRun(states', steps') && states <= states' && steps <= steps' && |steps'| == |steps| + 2
    ensures Enqueues(states'[|steps| + 1], steps'[|steps| + 1], v)
    ensures
      var s, t := states[|steps|], states'[|steps'|];
      && states'[|steps| + 1].workers == t.workers == s.workers && t.owed == map[] && v in t.stale
  {
    states', steps' := Continue(states, steps, Change(w, {v}));
    states', steps' := Continue(states', steps', Enqueue(w));
  }

  /** The view's tables change and it is enqueued between its refresh and its deletion: ON CONFLICT DO NOTHING keeps the
      old row, and the deletion takes it away. */
  lemma EnqueueBetweenIsLost(s: State, x: Id, w: Id, v: View) returns (states: seq<State>, steps: seq<Step>)
    requires Idle(s, v) && v in s.queue
    ensures IsRun(states, steps) && states[0] == s && |steps| == 7
    ensures Enqueues(states[4], steps[4], v) && AnyBetween(states[4], v)
    ensures v in states[7].stale && !Covered(states[7], v)
  {
    states, steps := UntilRefreshed([s], [], x, v);
    states, steps := ChangedAndEnqueued(states, steps, w, v);
    assert Between(states[4].workers[x], v);
    states, steps := UntilDeleted(states, steps, x, v);
  }

  lemma Triggered(s: State, w: Id, v: View) returns (states: seq<State>, steps: seq<Step>)
    requires Idle(s, v) && v in s.queue
    ensures IsRun(states, steps) && states[0] == s && |steps| == 1
    ensures
      var t := states[1];
      && t.queue == s.queue && t.workers == map[] && t.owed == map[] && t.dependent == {v}
      && w in t.writes && t.writes[w] == Write({v}, {})
  {
    states, steps := Continue([s], [], Trigger(w, {v}));
    assert {v} - s.queue.Keys == {};
  }

  /** A trigger finds the view queued and inserts nothing; the view is refreshed, without the changes, and deleted; then
      the transaction commits. */
  lemma WriteAcrossDeletionIsLost(s: State, x: Id, w: Id, v: View) returns (states: seq<State>, steps: seq<Step>)
    requires Idle(s, v) && v in s.queue
    ensures IsRun(states, steps) && states[0] == s && |steps| == 7
    ensures Deletes(states[5], steps[5], v) && BeingWritten(states[5], v)
    ensures v in states[7].stale && !Covered(states[7], v)
  {
    states, steps := Triggered(s, w, v);
    states, steps := UntilRefreshed(states, steps, x, v);
    states, steps := UntilDeleted(states, steps, x, v);
    assert v in states[5].writes[w].views;
    states, steps := Continue(states, steps, CommitWrite(w));
  }

  // ------------------------------------------------------------------------------- the tally of a run

  ghost predicate Tallied(w: Worker) {
    w.attempted == |w.refreshedViews| + |w.failedViews| + if w.progress.NotAttempted? then 0 else 1
  }

  /** Between two views, every run has attempted exactly the views it has refreshed and the views it has failed. */
  lemma {:induction false} AttemptsAreAccountedFor(states: seq<State>, steps: seq<Step>, n: nat)
    requires IsRun(states, steps) && n <= |steps|
    ensures forall x :: x in states[n].workers ==> Tallied(states[n].workers[x])
  {
    if n > 0 {
      AttemptsAreAccountedFor(states, steps, n - 1);
      var s, e := states[n - 1], steps[n - 1];
      assert Can(s, e) && states[n] == Do(s, e);
      forall x | x in states[n].workers ensures Tallied(states[n].workers[x]) {
        assert x in s.workers ==> Tallied(s.workers[x]);
      }
    }
  }
}
