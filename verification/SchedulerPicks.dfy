/** Which schedule a tick takes: row locks as the history of transactions, and the two queries with SKIP LOCKED. */
module SchedulerPicks {
  import opened Options
  import opened Scheduler
  import opened SchedulerSafety

  // ------------------------------------------------------------------------------- row locks

  /** Connection `y` reads schedule `i` FOR UPDATE, or updates it. */
  predicate LocksRow(s: State, e: Step, y: Id, i: Id) {
    || e == Act(y, PickNew(i)) || e == Act(y, PickDue(i))
    || (e == Act(y, DisableUpdate) && y in s.sessions && s.sessions[y].schedule == i && i in s.schedules)
  }

  /** Connection `y` reads job `j` FOR UPDATE, with a due schedule of it. */
  predicate LocksJobRow(s: State, e: Step, y: Id, j: Id) {
    e.Act? && e.x == y && e.m.PickDue? && e.m.i in s.schedules && s.schedules[e.m.i].jobId == j
  }

  /** A transaction of `y` ends: it commits, or is rolled back because the cron expression does not parse or the
      advisory lock is held, or the connection is closed. */
  predicate EndsTransaction(hash: Hash, s: State, e: Step, y: Id) {
    || e == Commit(y) || e == Close(y) || e == Act(y, Compute(None))
    || (e == TryLock(y) && y in s.sessions && hash(s.sessions[y].job) in s.locks)
  }

  predicate Holds(s: State, y: Id, i: Id) {
    y in s.sessions && HoldsRow(s.sessions[y]) && s.sessions[y].schedule == i
  }

  predicate HoldsJob(s: State, y: Id, j: Id) {
    y in s.sessions && HoldsJobRow(s.sessions[y]) && s.sessions[y].job == j
  }

  ghost predicate StillOpen(hash: Hash, states: seq<State>, steps: seq<Step>, from: nat, n: nat, y: Id)
    requires n <= |steps| < |states|
  {
    forall l :: from <= l < n ==> !EndsTransaction(hash, states[l], steps[l], y)
  }

  ghost predicate LockedAt(hash: Hash, states: seq<State>, steps: seq<Step>, k: nat, n: nat, y: Id, i: Id)
    requires n <= |steps| < |states|
  {
    k < n && LocksRow(states[k], steps[k], y, i) && StillOpen(hash, states, steps, k + 1, n, y)
  }

  ghost predicate JobLockedAt(hash: Hash, states: seq<State>, steps: seq<Step>, k: nat, n: nat, y: Id, j: Id)
    requires n <= |steps| < |states|
  {
    k < n && LocksJobRow(states[k], steps[k], y, j) && StillOpen(hash, states, steps, k + 1, n, y)
  }

  lemma MoveHolds(s: State, y: Id, m: Move, i: Id)
    requires CanMove(s, y, m) && (y in s.sessions && s.sessions[y].trigger.ByRunNow? ==> RunNowPc(s.sessions[y].pc))
    requires y in s.sessions ==> !s.sessions[y].trigger.ByValidation?
    ensures HoldsRow(Moved(s, y, m)) && Moved(s, y, m).schedule == i
            <==> LocksRow(s, Act(y, m), y, i) || (Holds(s, y, i) && m != Compute(None))
  {
  }

  lemma MoveHoldsJob(s: State, y: Id, m: Move, j: Id)
    requires CanMove(s, y, m) && (y in s.sessions && s.sessions[y].trigger.ByRunNow? ==> RunNowPc(s.sessions[y].pc))
    requires y in s.sessions ==> !s.sessions[y].trigger.ByValidation?
    ensures HoldsJobRow(Moved(s, y, m)) && Moved(s, y, m).job == j
            <==> LocksJobRow(s, Act(y, m), y, j) || (HoldsJob(s, y, j) && m != Compute(None))
  {
  }

  predicate RunNowPc(pc: Pc) {
    || pc.Cleared? || pc.Locked? || pc.Inserted? || pc.Claimed? || pc.Executing? || pc.Executed? || pc.FinishPending?
    || pc.Unlocked? || pc.Done?
  }

  /** After a step `y` has a row locked exactly if the step locks it, or it was locked and its transaction goes on. */
  ghost predicate HoldsAfter(hash: Hash, s: State, e: Step, t: State, y: Id, i: Id, j: Id) {
    && (Holds(t, y, i) <==> LocksRow(s, e, y, i) || (Holds(s, y, i) && !EndsTransaction(hash, s, e, y)))
    && (HoldsJob(t, y, j) <==> LocksJobRow(s, e, y, j) || (HoldsJob(s, y, j) && !EndsTransaction(hash, s, e, y)))
  }

  predicate IsOf(e: Step, y: Id) {
    e == Commit(y) || e == TryLock(y) || e == Unlock(y) || e == Close(y)
  }

  lemma OwnStepHolds(hash: Hash, s: State, e: Step, y: Id, i: Id, j: Id)
    requires Can(s, e) && IsOf(e, y) && SessionOk(hash, s, y, s.sessions[y])
    ensures HoldsAfter(hash, s, e, Do(hash, s, e), y, i, j)
  {
  }

  lemma OtherStepHolds(hash: Hash, s: State, e: Step, y: Id, i: Id, j: Id)
    requires Can(s, e) && !IsOf(e, y) && !(e.Act? && e.x == y)
    ensures HoldsAfter(hash, s, e, Do(hash, s, e), y, i, j)
  {
  }

  lemma ActMoves(s: State, t: State, y: Id, w: Session, i: Id, j: Id)
    requires t.sessions == s.sessions[y := w]
    ensures Holds(t, y, i) <==> HoldsRow(w) && w.schedule == i
    ensures HoldsJob(t, y, j) <==> HoldsJobRow(w) && w.job == j
  {
  }

  lemma ActHolds(hash: Hash, s: State, y: Id, m: Move, i: Id, j: Id)
    requires CanMove(s, y, m) && (y in s.sessions ==> SessionOk(hash, s, y, s.sessions[y]))
    ensures HoldsAfter(hash, s, Act(y, m), DoAct(s, y, m), y, i, j)
  {
    MoveHolds(s, y, m, i);
    MoveHoldsJob(s, y, m, j);
    ActMoves(s, DoAct(s, y, m), y, Moved(s, y, m), i, j);
  }

  lemma StepHolds(hash: Hash, s: State, e: Step, t: State, y: Id, i: Id, j: Id)
    requires Inv(hash, s) && Can(s, e) && t == Do(hash, s, e)
    ensures HoldsAfter(hash, s, e, t, y, i, j)
  {
    if y in s.sessions {
      assert SessionOk(hash, s, y, s.sessions[y]);
    }
    if e.Act? && e.x == y {
      ActHolds(hash, s, y, e.m, i, j);
    } else if IsOf(e, y) {
      OwnStepHolds(hash, s, e, y, i, j);
    } else {
      OtherStepHolds(hash, s, e, y, i, j);
    }
  }

  ghost predicate RowLocked(hash: Hash, states: seq<State>, steps: seq<Step>, n: nat, y: Id, i: Id)
    requires n <= |steps| < |states|
  {
    exists k :: 0 <= k < n && LockedAt(hash, states, steps, k, n, y, i)
  }

  lemma RowLockedStep(hash: Hash, states: seq<State>, steps: seq<Step>, n: nat, y: Id, i: Id)
    requires n < |steps| < |states|
    ensures RowLocked(hash, states, steps, n + 1, y, i)
            <==> || LocksRow(states[n], steps[n], y, i)
                 || (RowLocked(hash, states, steps, n, y, i) && !EndsTransaction(hash, states[n], steps[n], y))
  {
    if LocksRow(states[n], steps[n], y, i) {
      assert LockedAt(hash, states, steps, n, n + 1, y, i);
    } else if RowLocked(hash, states, steps, n, y, i) && !EndsTransaction(hash, states[n], steps[n], y) {
      var k :| 0 <= k < n && LockedAt(hash, states, steps, k, n, y, i);
      assert LockedAt(hash, states, steps, k, n + 1, y, i);
    }
    if RowLocked(hash, states, steps, n + 1, y, i) {
      var k :| 0 <= k < n + 1 && LockedAt(hash, states, steps, k, n + 1, y, i);
      if k < n {
        assert LockedAt(hash, states, steps, k, n, y, i);
      }
    }
  }

  /** Over every run: a connection has a schedule's row locked exactly when it took the lock in a transaction that has
      not ended. */
  lemma {:induction false} RowLockedIff(hash: Hash, states: seq<State>, steps: seq<Step>, n: nat, y: Id, i: Id)
    requires IsRun(hash, states, steps) && n <= |steps|
    ensures Holds(states[n], y, i) <==> RowLocked(hash, states, steps, n, y, i)
  {
    if n > 0 {
      RowLockedIff(hash, states, steps, n - 1, y, i);
      InvAlways(hash, states, steps, n - 1);
      StepHolds(hash, states[n - 1], steps[n - 1], states[n], y, i, 0);
      RowLockedStep(hash, states, steps, n - 1, y, i);
    }
  }

  ghost predicate JobRowLocked(hash: Hash, states: seq<State>, steps: seq<Step>, n: nat, y: Id, j: Id)
    requires n <= |steps| < |states|
  {
    exists k :: 0 <= k < n && JobLockedAt(hash, states, steps, k, n, y, j)
  }

  lemma JobRowLockedStep(hash: Hash, states: seq<State>, steps: seq<Step>, n: nat, y: Id, j: Id)
    requires n < |steps| < |states|
    ensures JobRowLocked(hash, states, steps, n + 1, y, j)
            <==> || LocksJobRow(states[n], steps[n], y, j)
                 || (JobRowLocked(hash, states, steps, n, y, j) && !EndsTransaction(hash, states[n], steps[n], y))
  {
    if LocksJobRow(states[n], steps[n], y, j) {
      assert JobLockedAt(hash, states, steps, n, n + 1, y, j);
    } else if JobRowLocked(hash, states, steps, n, y, j) && !EndsTransaction(hash, states[n], steps[n], y) {
      var k :| 0 <= k < n && JobLockedAt(hash, states, steps, k, n, y, j);
      assert JobLockedAt(hash, states, steps, k, n + 1, y, j);
    }
    if JobRowLocked(hash, states, steps, n + 1, y, j) {
      var k :| 0 <= k < n + 1 && JobLockedAt(hash, states, steps, k, n + 1, y, j);
      if k < n {
        assert JobLockedAt(hash, states, steps, k, n, y, j);
      }
    }
  }

  /** Likewise for the row of a job. */
  lemma {:induction false} JobRowLockedIff(hash: Hash, states: seq<State>, steps: seq<Step>, n: nat, y: Id, j: Id)
    requires IsRun(hash, states, steps) && n <= |steps|
    ensures HoldsJob(states[n], y, j) <==> JobRowLocked(hash, states, steps, n, y, j)
  {
    if n > 0 {
      JobRowLockedIff(hash, states, steps, n - 1, y, j);
      InvAlways(hash, states, steps, n - 1);
      StepHolds(hash, states[n - 1], steps[n - 1], states[n], y, 0, j);
      JobRowLockedStep(hash, states, steps, n - 1, y, j);
    }
  }

  // ------------------------------------------------------------------------------- transaction times

  /** The first statement of a transaction of `y`. That of a tick is one of its two queries, that of a run-now the
      advisory lock; the update at the end of a run and the disabling update each begin another. */
  predicate Begins(s: State, e: Step, y: Id) {
    || (e.Act? && e.x == y && (e.m.PickNew? || e.m.NoNew? || e.m.UpdateRun? || e.m.DisableUpdate?))
    || (e == TryLock(y) && y in s.sessions && s.sessions[y].trigger.ByRunNow?)
  }

  predicate InTransaction(v: Session) {
    || v.pc.NewPicked? || v.pc.NewReady? || v.pc.NewPending? || v.pc.NothingNew? || v.pc.DuePicked? || v.pc.DueReady?
    || v.pc.SkipPending? || (v.pc.Cleared? && v.trigger.BySchedule?) || v.pc.Locked? || v.pc.Inserted?
    || v.pc.ClaimPending? || v.pc.FinishPending? || v.pc.Unlocked? || v.pc.DisableUpdated? || v.pc.DisableInserted?
  }

  ghost predicate BeganAt(hash: Hash, states: seq<State>, steps: seq<Step>, k: nat, n: nat, y: Id, txn: Time)
    requires n <= |steps| < |states|
  {
    && k < n && Begins(states[k], steps[k], y) && txn == states[k].now
    && forall l :: k < l < n ==> !Begins(states[l], steps[l], y) && !EndsTransaction(hash, states[l], steps[l], y)
  }

  ghost predicate Began(hash: Hash, states: seq<State>, steps: seq<Step>, n: nat, y: Id, txn: Time)
    requires n <= |steps| < |states|
  {
    exists k :: 0 <= k < n && BeganAt(hash, states, steps, k, n, y, txn)
  }

  /** A connection in a transaction has just begun it, or was in it before. */
  predicate InSameTransaction(hash: Hash, s: State, e: Step, y: Id, w: Session) {
    InTransaction(w) ==>
      || (Begins(s, e, y) && w.txn == s.now)
      || (y in s.sessions && InTransaction(s.sessions[y]) && w.txn == s.sessions[y].txn && !Begins(s, e, y)
          && !EndsTransaction(hash, s, e, y))
  }

  lemma MoveInTransaction(hash: Hash, s: State, y: Id, m: Move)
    requires CanMove(s, y, m) && (y in s.sessions ==> SessionOk(hash, s, y, s.sessions[y]))
    ensures InSameTransaction(hash, s, Act(y, m), y, Moved(s, y, m))
  {
  }

  lemma OwnStepInTransaction(hash: Hash, s: State, e: Step, y: Id)
    requires Can(s, e) && IsOf(e, y) && SessionOk(hash, s, y, s.sessions[y]) && y in Do(hash, s, e).sessions
    ensures InSameTransaction(hash, s, e, y, Do(hash, s, e).sessions[y])
  {
  }

  lemma OtherStepInTransaction(hash: Hash, s: State, e: Step, y: Id)
    requires Can(s, e) && !IsOf(e, y) && !(e.Act? && e.x == y) && y in Do(hash, s, e).sessions
    ensures InSameTransaction(hash, s, e, y, Do(hash, s, e).sessions[y])
  {
  }

  lemma StepInTransaction(hash: Hash, s: State, e: Step, t: State, y: Id)
    requires Inv(hash, s) && Can(s, e) && t == Do(hash, s, e) && y in t.sessions
    ensures InSameTransaction(hash, s, e, y, t.sessions[y])
  {
    if y in s.sessions {
      assert SessionOk(hash, s, y, s.sessions[y]);
    }
    if e.Act? && e.x == y {
      MoveInTransaction(hash, s, y, e.m);
    } else if IsOf(e, y) {
      OwnStepInTransaction(hash, s, e, y);
    } else {
      OtherStepInTransaction(hash, s, e, y);
    }
  }

  /** Over every run: a transaction's time, which dates the rows it writes, is the clock at its first statement. */
  lemma {:induction false} TransactionTime(hash: Hash, states: seq<State>, steps: seq<Step>, n: nat, y: Id)
    requires IsRun(hash, states, steps) && n <= |steps| && y in states[n].sessions
    requires InTransaction(states[n].sessions[y])
    ensures Began(hash, states, steps, n, y, states[n].sessions[y].txn)
  {
    assert n > 0;
    var s, e := states[n - 1], steps[n - 1];
    InvAlways(hash, states, steps, n - 1);
    StepInTransaction(hash, s, e, states[n], y);
    if Begins(s, e, y) {
      assert BeganAt(hash, states, steps, n - 1, n, y, states[n].sessions[y].txn);
    } else {
      TransactionTime(hash, states, steps, n - 1, y);
      var k :| 0 <= k < n - 1 && BeganAt(hash, states, steps, k, n - 1, y, s.sessions[y].txn);
      assert BeganAt(hash, states, steps, k, n, y, states[n].sessions[y].txn);
    }
  }

  /** So a claimed row starts when the transaction that claims it began, and a concluded one is finished when the one
      that concludes it did. */
  lemma RunTimes(hash: Hash, states: seq<State>, steps: seq<Step>, n: nat, y: Id)
    requires IsRun(hash, states, steps) && n < |steps| && steps[n] == Commit(y)
    requires Claims(states[n].sessions[y]) || states[n].sessions[y].pc.Unlocked?
    ensures
      var run, runs := states[n].sessions[y].run, states[n + 1].runs;
      && run in runs
      && if Claims(states[n].sessions[y])
         then Began(hash, states, steps, n, y, runs[run].startedAt) && runs[run].finishedAt.None?
         else runs[run].finishedAt.Some? && Began(hash, states, steps, n, y, runs[run].finishedAt.value)
  {
    TransactionTime(hash, states, steps, n, y);
    InvAlways(hash, states, steps, n);
    assert SessionOk(hash, states[n], y, states[n].sessions[y]);
  }

  // ------------------------------------------------------------------------------- the queries

  /** Some other connection has the row of schedule `i` locked. */
  ghost predicate LockedByOther(s: State, x: Id, i: Id) {
    exists y :: y != x && Holds(s, y, i)
  }

  ghost predicate JobLockedByOther(s: State, x: Id, j: Id) {
    exists y :: y != x && HoldsJob(s, y, j)
  }

  /** An enabled schedule of an enabled job whose due time has come. */
  predicate DueBy(s: State, until: Time, i: Id) {
    && i in s.schedules && s.schedules[i].enabled && s.schedules[i].nextRunAt.Some?
    && s.schedules[i].nextRunAt.value <= until && s.schedules[i].jobId in s.jobs && s.jobs[s.schedules[i].jobId].enabled
  }

  /** An enabled schedule without a due time. */
  predicate New(s: State, i: Id) {
    i in s.schedules && s.schedules[i].enabled && s.schedules[i].nextRunAt.None?
  }

  ghost predicate DueAndFree(s: State, until: Time, x: Id, i: Id) {
    DueBy(s, until, i) && !LockedByOther(s, x, i) && !JobLockedByOther(s, x, s.schedules[i].jobId)
  }

  ghost predicate NewAndFree(s: State, x: Id, i: Id) {
    New(s, i) && !LockedByOther(s, x, i)
  }

  /** The first of those that are free, in the order of their due times. */
  ghost predicate IsEarliestDue(s: State, until: Time, x: Id, i: Id) {
    DueAndFree(s, until, x, i)
    && forall k :: DueAndFree(s, until, x, k) ==> s.schedules[i].nextRunAt.value <= s.schedules[k].nextRunAt.value
  }

  ghost predicate IsFirstNew(s: State, x: Id, i: Id) {
    NewAndFree(s, x, i) && forall k :: NewAndFree(s, x, k) ==> i <= k
  }

  lemma FreeIffNotHeld(s: State, x: Id, i: Id, j: Id)
    requires x in s.sessions ==> !HoldsRow(s.sessions[x]) && !HoldsJobRow(s.sessions[x])
    ensures LockedByOther(s, x, i) <==> RowHeld(s, i)
    ensures JobLockedByOther(s, x, j) <==> JobRowHeld(s, j)
  {
    if y :| y in s.sessions && HoldsRow(s.sessions[y]) && s.sessions[y].schedule == i {
      assert Holds(s, y, i);
    }
    if y :| y in s.sessions && HoldsJobRow(s.sessions[y]) && s.sessions[y].job == j {
      assert HoldsJob(s, y, j);
    }
  }

  lemma CandidateIff(s: State, x: Id, until: Time, i: Id)
    requires x in s.sessions ==> !HoldsRow(s.sessions[x]) && !HoldsJobRow(s.sessions[x])
    ensures DueCandidate(s, until, i) <==> DueAndFree(s, until, x, i)
    ensures NewCandidate(s, i) <==> NewAndFree(s, x, i)
  {
    if i in s.schedules {
      FreeIffNotHeld(s, x, i, s.schedules[i].jobId);
    }
  }

  /** The tick's second query takes the earliest free schedule that is due, and nothing exactly when there is none. */
  lemma DueQuery(s: State, x: Id)
    requires At(s, x, NothingNew)
    ensures forall i :: CanMove(s, x, PickDue(i)) <==> IsEarliestDue(s, s.sessions[x].txn, x, i)
    ensures CanMove(s, x, NoDue) <==> forall i :: !DueAndFree(s, s.sessions[x].txn, x, i)
  {
    forall i
      ensures DueCandidate(s, s.sessions[x].txn, i) <==> DueAndFree(s, s.sessions[x].txn, x, i)
    {
      CandidateIff(s, x, s.sessions[x].txn, i);
    }
  }

  /** Its first query takes the free schedule without a due time whose id is least, and nothing exactly when there is
      none. */
  lemma NewQuery(s: State, x: Id)
    requires At(s, x, Opened)
    ensures forall i :: CanMove(s, x, PickNew(i)) <==> IsFirstNew(s, x, i)
    ensures CanMove(s, x, NoNew) <==> forall i :: !NewAndFree(s, x, i)
  {
    forall i ensures NewCandidate(s, i) <==> NewAndFree(s, x, i) {
      CandidateIff(s, x, 0, i);
    }
  }

  lemma NowStep(hash: Hash, s: State, e: Step)
    requires Can(s, e)
    ensures s.now <= Do(hash, s, e).now
  {
  }

  /** The clock never goes back. */
  lemma {:induction false} NowRises(hash: Hash, states: seq<State>, steps: seq<Step>, m: nat, n: nat)
    requires IsRun(hash, states, steps) && m <= n <= |steps|
    ensures states[m].now <= states[n].now
  {
    if m < n {
      NowRises(hash, states, steps, m, n - 1);
      NowStep(hash, states[n - 1], steps[n - 1]);
    }
  }
}
