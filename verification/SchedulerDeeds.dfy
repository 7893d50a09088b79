/** What a connection has done to the tables, read off the history of a run: one deed for each of its commits. */
module SchedulerDeeds {
  import opened Options
  import opened Scheduler
  import opened SchedulerSafety
  import opened SchedulerRows
  import opened SchedulerTheorems

  /** A schedule's slot that was consumed, and the due time the schedule was given instead. */
  datatype Slot = Slot(schedule: Id, due: Time, at: Time)

  datatype Deed =
    | ClaimedRun(run: Id, job: Id, taken: Option<Slot>)        // None: by run-now, which consumes no slot
    | SkippedSlot(slot: Slot, job: Id)
    | GaveDueTime(schedule: Id, at: Time)
    | ConcludedRun(run: Id, status: Status, error: Option<Reason>)
    | DisabledSchedule(schedule: Id, job: Id, run: Id, error: Option<Reason>)

  function SlotOf(v: Session): Slot {
    Slot(v.schedule, v.slot, v.next)
  }

  /** The deed of a connection that commits. */
  function DeedOf(v: Session): Deed {
    if Claims(v) then ClaimedRun(v.run, v.job, if v.trigger.BySchedule? then Some(SlotOf(v)) else None)
    else if v.pc.SkipPending? then SkippedSlot(SlotOf(v), v.job)
    else if v.pc.NewPending? then GaveDueTime(v.schedule, v.next)
    else if v.pc.Unlocked? then ConcludedRun(v.run, v.status, v.error)
    else DisabledSchedule(v.schedule, v.job, v.run, v.error)
  }

  predicate CommitsBy(s: State, e: Step, x: Id) {
    e == Commit(x) && x in s.sessions
  }

  function OneMore(deeds: seq<Deed>, s: State, e: Step, x: Id): seq<Deed> {
    if CommitsBy(s, e, x) then deeds + [DeedOf(s.sessions[x])] else deeds
  }

  /** The deeds of connection `x` in the first `n` steps. */
  function Deeds(states: seq<State>, steps: seq<Step>, n: nat, x: Id): seq<Deed>
    requires n <= |steps| < |states|
  {
    if n == 0 then [] else OneMore(Deeds(states, steps, n - 1, x), states[n - 1], steps[n - 1], x)
  }

  lemma {:induction false} DeedsOfPrefix(states: seq<State>, steps: seq<Step>, states': seq<State>, steps': seq<Step>,
                                         n: nat, x: Id)
    requires n <= |steps| < |states| && states <= states' && steps <= steps' && |steps'| < |states'|
    ensures Deeds(states', steps', n, x) == Deeds(states, steps, n, x)
  {
    if n > 0 {
      DeedsOfPrefix(states, steps, states', steps', n - 1, x);
    }
  }

  lemma {:induction false} DeedsGrow(states: seq<State>, steps: seq<Step>, m: nat, n: nat, x: Id)
    requires m <= n <= |steps| < |states|
    ensures Deeds(states, steps, m, x) <= Deeds(states, steps, n, x)
  {
    if m < n {
      DeedsGrow(states, steps, m, n - 1, x);
    }
  }

  /** A commit of `x` at step `k` of the stretch is the deed at its place. */
  lemma CommitIsDeed(states: seq<State>, steps: seq<Step>, m: nat, k: nat, n: nat, x: Id)
    requires m <= k < n <= |steps| < |states| && CommitsBy(states[k], steps[k], x)
    ensures |Deeds(states, steps, m, x)| <= |Deeds(states, steps, k, x)| < |Deeds(states, steps, n, x)|
    ensures Deeds(states, steps, n, x)[|Deeds(states, steps, k, x)|] == DeedOf(states[k].sessions[x])
  {
    DeedsGrow(states, steps, m, k, x);
    DeedsGrow(states, steps, k + 1, n, x);
  }

  /** Every deed of the stretch was one commit of `x` in it. */
  lemma {:induction false} DeedWasDone(states: seq<State>, steps: seq<Step>, m: nat, n: nat, x: Id, j: nat)
    returns (k: nat)
    requires m <= n <= |steps| < |states|
    requires |Deeds(states, steps, m, x)| <= j < |Deeds(states, steps, n, x)|
    ensures m <= k < n && CommitsBy(states[k], steps[k], x) && |Deeds(states, steps, k, x)| == j
    ensures DeedOf(states[k].sessions[x]) == Deeds(states, steps, n, x)[j]
  {
    if j < |Deeds(states, steps, n - 1, x)| {
      k := DeedWasDone(states, steps, m, n - 1, x, j);
    } else {
      k := n - 1;
    }
  }

  // ------------------------------------------------------------------------------- what the deeds mean

  /** The slot was due, of an enabled schedule and job, and has been given a later due time in the same commit. */
  ghost predicate SlotConsumed(s: State, t: State, slot: Slot) {
    var i := slot.schedule;
    && i in s.schedules && s.schedules[i].enabled && s.schedules[i].jobId in s.jobs
    && s.jobs[s.schedules[i].jobId].enabled
    && s.schedules[i].nextRunAt == Some(slot.due) && slot.due <= s.now && slot.due < slot.at
    && t.schedules == s.schedules[i := s.schedules[i].(nextRunAt := Some(slot.at))]
  }

  /** A row that was not there, and is all that is new. */
  ghost predicate RowAdded(s: State, t: State, run: Id, job: Id, status: Status) {
    && run !in s.runs && run in t.runs && t.runs == s.runs[run := t.runs[run]]
    && t.runs[run].jobId == job && t.runs[run].status == status
  }

  /** A commit from `s` to `t` with this deed. */
  ghost predicate Means(s: State, t: State, deed: Deed) {
    match deed
    case ClaimedRun(run, job, taken) =>
      && RowAdded(s, t, run, job, Running)
      && (taken.Some? ==> SlotConsumed(s, t, taken.value) && s.schedules[taken.value.schedule].jobId == job)
      && (taken.None? ==> t.schedules == s.schedules)
    case SkippedSlot(slot, job) =>
      SlotConsumed(s, t, slot) && s.schedules[slot.schedule].jobId == job && t.runs == s.runs
    case GaveDueTime(i, at) =>
      && i in s.schedules && s.schedules[i].nextRunAt.None? && t.runs == s.runs
      && t.schedules == s.schedules[i := s.schedules[i].(nextRunAt := Some(at))]
    case ConcludedRun(run, status, error) =>
      && run in s.runs && run in t.runs && t.runs == s.runs[run := t.runs[run]] && t.schedules == s.schedules
      && t.runs[run].status == status && t.runs[run].error == error && !Owned(t, run)
    case DisabledSchedule(i, job, run, error) =>
      && i in s.schedules && t.schedules == s.schedules[i := s.schedules[i].(enabled := false, nextRunAt := None)]
      && RowAdded(s, t, run, job, Failed) && t.runs[run].error == error
  }

  lemma ClaimMeans(hash: Hash, s: State, x: Id)
    requires Inv(hash, s) && x in s.sessions && Claims(s.sessions[x])
    ensures Means(s, DoCommit(s, x), DeedOf(s.sessions[x]))
  {
    assert SessionOk(hash, s, x, s.sessions[x]);
  }

  lemma ConclusionMeans(hash: Hash, s: State, x: Id)
    requires Inv(hash, s) && x in s.sessions && s.sessions[x].pc.Unlocked?
    ensures Means(s, DoCommit(s, x), DeedOf(s.sessions[x]))
  {
    assert SessionOk(hash, s, x, s.sessions[x]);
    FinalCommitDisowns(hash, s, Commit(x), s.sessions[x].run);
  }

  lemma OtherCommitMeans(hash: Hash, s: State, x: Id)
    requires Inv(hash, s) && x in s.sessions
    requires s.sessions[x].pc.SkipPending? || s.sessions[x].pc.NewPending? || s.sessions[x].pc.DisableInserted?
    ensures Means(s, DoCommit(s, x), DeedOf(s.sessions[x]))
  {
    assert SessionOk(hash, s, x, s.sessions[x]);
  }

  lemma CommitMeans(hash: Hash, s: State, x: Id)
    requires Inv(hash, s) && x in s.sessions && Committing(s.sessions[x])
    ensures Means(s, DoCommit(s, x), DeedOf(s.sessions[x]))
  {
    if Claims(s.sessions[x]) {
      ClaimMeans(hash, s, x);
    } else if s.sessions[x].pc.Unlocked? {
      ConclusionMeans(hash, s, x);
    } else {
      OtherCommitMeans(hash, s, x);
    }
  }

  /** In every run, each deed of a connection is one commit, with what the deed means as its effect. */
  lemma DeedsAreSound(hash: Hash, states: seq<State>, steps: seq<Step>, m: nat, n: nat, x: Id, j: nat)
    returns (k: nat)
    requires IsRun(hash, states, steps) && m <= n <= |steps|
    requires |Deeds(states, steps, m, x)| <= j < |Deeds(states, steps, n, x)|
    ensures m <= k < n && steps[k] == Commit(x) && |Deeds(states, steps, k, x)| == j
    ensures Means(states[k], states[k + 1], Deeds(states, steps, n, x)[j])
  {
    k := DeedWasDone(states, steps, m, n, x, j);
    InvAlways(hash, states, steps, k);
    CommitMeans(hash, states[k], x);
  }

  /** The connection that takes a step, if one does. */
  function Taker(e: Step): Option<Id> {
    match e
    case Act(x, _) => Some(x)
    case Commit(x) => Some(x)
    case TryLock(x) => Some(x)
    case Unlock(x) => Some(x)
    case Close(x) => Some(x)
    case _ => None
  }

  ghost predicate NotBy(steps: seq<Step>, from: nat, x: Id) {
    forall i :: from <= i < |steps| ==> Taker(steps[i]) != Some(x)
  }

  lemma {:induction false} OthersAddNone(states: seq<State>, steps: seq<Step>, m: nat, n: nat, x: Id)
    requires m <= n <= |steps| < |states| && NotBy(steps, m, x)
    ensures Deeds(states, steps, n, x) == Deeds(states, steps, m, x)
  {
    if m < n {
      OthersAddNone(states, steps, m, n - 1, x);
      assert Taker(steps[n - 1]) != Some(x);
    }
  }

  lemma OnlyCommitsWrite(hash: Hash, s: State, e: Step, x: Id)
    requires Can(s, e) && Taker(e) == Some(x) && e != Commit(x)
    ensures Do(hash, s, e).runs == s.runs && Do(hash, s, e).schedules == s.schedules && Do(hash, s, e).jobs == s.jobs
  {
  }

  /** The tables change by no other step of `x`: without a new deed in the stretch, none of its steps has touched them.
      */
  lemma NoDeedNoChange(hash: Hash, states: seq<State>, steps: seq<Step>, m: nat, k: nat, n: nat, x: Id)
    requires IsRun(hash, states, steps) && m <= k < n <= |steps|
    requires Deeds(states, steps, n, x) == Deeds(states, steps, m, x)
    requires Taker(steps[k]) == Some(x)
    ensures states[k + 1].runs == states[k].runs && states[k + 1].schedules == states[k].schedules
    ensures states[k + 1].jobs == states[k].jobs
  {
    assert Can(states[k], steps[k]) && states[k + 1] == Do(hash, states[k], steps[k]);
    if steps[k] == Commit(x) {
      CommitIsDeed(states, steps, m, k, n, x);
    } else {
      OnlyCommitsWrite(hash, states[k], steps[k], x);
    }
  }

  /** A row that is visible was visible to everyone from its first commit on, so one that a connection claims in the
      stretch was there in no state before the stretch. */
  lemma ClaimIsNew(hash: Hash, states: seq<State>, steps: seq<Step>, m: nat, n: nat, x: Id, j: nat)
    requires IsRun(hash, states, steps) && m <= n <= |steps|
    requires |Deeds(states, steps, m, x)| <= j < |Deeds(states, steps, n, x)|
    requires Deeds(states, steps, n, x)[j].ClaimedRun?
    ensures Deeds(states, steps, n, x)[j].run !in states[m].runs
  {
    var k := DeedsAreSound(hash, states, steps, m, n, x, j);
    var run := Deeds(states, steps, n, x)[j].run;
    if run in states[m].runs {
      RowsNeverRunAgain(hash, states, steps, m, k, run);
    }
  }
}
