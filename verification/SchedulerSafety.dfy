/** What every run of the job protocol keeps. */
module SchedulerSafety {
  import opened Options
  import opened Scheduler

  // ------------------------------------------------------------------------------- the invariant

  /** What a single session's program counter says about the tables and the advisory locks. */
  ghost predicate SessionOk(hash: Hash, s: State, x: Id, v: Session) {
    && (v.trigger.BySchedule? || v.trigger.ByRunNow?)
    && (HoldsLock(v) ==> hash(v.job) in s.locks && s.locks[hash(v.job)] == x)
    && ((v.pc.NewPicked? || v.pc.NewReady? || v.pc.NewPending?) ==>
          v.schedule in s.schedules && s.schedules[v.schedule].nextRunAt.None?)
    && ((v.pc.DisableUpdated? || v.pc.DisableInserted?) ==> v.schedule in s.schedules)
    && (HoldsJobRow(v) ==>
          && v.schedule in s.schedules && s.schedules[v.schedule].enabled
          && s.schedules[v.schedule].jobId == v.job && s.schedules[v.schedule].nextRunAt == Some(v.slot)
          && v.job in s.jobs && s.jobs[v.job].enabled && v.slot <= v.txn)
    && (HoldsJobRow(v) && !v.pc.DuePicked? ==> v.txn <= v.base < v.next)
    && v.txn <= s.now && (v.trigger.BySchedule? && HoldsJobRow(v) && !v.pc.DuePicked? ==> v.base <= s.now)
    && (OwnsRun(v) ==> v.run in s.runs && s.runs[v.run].jobId == v.job && s.runs[v.run].trigger == v.trigger)
    && (InsertPending(v) ==> v.run in s.usedRunIds && v.run !in s.runs)
    && ((v.pc.Executed? || v.pc.FinishPending? || v.pc.Unlocked?) ==> !v.status.Running?)
    && (v.trigger.ByRunNow? ==>
          || v.pc.Cleared? || v.pc.Locked? || v.pc.Inserted? || v.pc.Claimed? || v.pc.Executing? || v.pc.Executed?
          || v.pc.FinishPending? || v.pc.Unlocked? || v.pc.Done?)
  }

  ghost predicate SessionsOk(hash: Hash, s: State) {
    forall x :: x in s.sessions ==> SessionOk(hash, s, x, s.sessions[x])
  }

  ghost predicate LocksOwned(hash: Hash, s: State) {
    forall k :: k in s.locks ==>
                  && s.locks[k] in s.sessions && HoldsLock(s.sessions[s.locks[k]])
                  && hash(s.sessions[s.locks[k]].job) == k
  }

  ghost predicate RowLocksExclusive(s: State) {
    forall x, y :: x in s.sessions && y in s.sessions && x != y && HoldsRow(s.sessions[x]) && HoldsRow(s.sessions[y])
                   ==> s.sessions[x].schedule != s.sessions[y].schedule
  }

  predicate NamesRun(v: Session) {
    OwnsRun(v) || InsertPending(v)
  }

  ghost predicate RunsExclusive(s: State) {
    forall x, y :: x in s.sessions && y in s.sessions && x != y && NamesRun(s.sessions[x]) && NamesRun(s.sessions[y])
                   ==> s.sessions[x].run != s.sessions[y].run
  }

  ghost predicate RowsOk(s: State) {
    && s.runs.Keys <= s.usedRunIds
    && forall r :: r in s.runs ==> (s.runs[r].status.Running? <==> s.runs[r].finishedAt.None?)
  }

  ghost predicate Inv(hash: Hash, s: State) {
    SessionsOk(hash, s) && LocksOwned(hash, s) && RowLocksExclusive(s) && RunsExclusive(s) && RowsOk(s)
  }

  // ------------------------------------------------------------------------------- preservation

  /** The rows and locks session `y` relies on are the same in `s` and `t`. */
  ghost predicate Undisturbed(hash: Hash, s: State, t: State, y: Id, v: Session) {
    && (HoldsLock(v) && hash(v.job) in s.locks ==>
          hash(v.job) in t.locks && t.locks[hash(v.job)] == s.locks[hash(v.job)])
    && (HoldsRow(v) && v.schedule in s.schedules ==>
          v.schedule in t.schedules && t.schedules[v.schedule] == s.schedules[v.schedule])
    && (HoldsJobRow(v) && v.job in s.jobs ==> v.job in t.jobs && t.jobs[v.job] == s.jobs[v.job])
    && (OwnsRun(v) && v.run in s.runs ==>
          && v.run in t.runs && t.runs[v.run].jobId == s.runs[v.run].jobId
          && t.runs[v.run].trigger == s.runs[v.run].trigger)
    && (InsertPending(v) && v.run !in s.runs ==> v.run !in t.runs)
    && s.now <= t.now && s.usedRunIds <= t.usedRunIds
  }

  lemma UndisturbedOk(hash: Hash, s: State, t: State, y: Id, v: Session)
    requires SessionOk(hash, s, y, v) && Undisturbed(hash, s, t, y, v)
    ensures SessionOk(hash, t, y, v)
  {
  }

  /** In a step of session `x` every other session stays where it is and keeps what it relies on. */
  ghost predicate OnlyMoves(hash: Hash, s: State, t: State, x: Id) {
    forall y :: y in t.sessions && y != x ==>
                  y in s.sessions && t.sessions[y] == s.sessions[y] && Undisturbed(hash, s, t, y, s.sessions[y])
  }

  lemma SessionsKept(hash: Hash, s: State, t: State, x: Id)
    requires SessionsOk(hash, s) && OnlyMoves(hash, s, t, x)
    requires x in t.sessions ==> SessionOk(hash, t, x, t.sessions[x])
    ensures SessionsOk(hash, t)
  {
    forall y | y in t.sessions ensures SessionOk(hash, t, y, t.sessions[y]) {
      if y != x {
        UndisturbedOk(hash, s, t, y, s.sessions[y]);
      }
    }
  }

  /** A step of session `x` that touches no table and no advisory lock. */
  ghost predicate IsLocalMove(s: State, t: State, x: Id) {
    && x in t.sessions && t.sessions == s.sessions[x := t.sessions[x]]
    && t.jobs == s.jobs && t.schedules == s.schedules && t.runs == s.runs && t.locks == s.locks
    && s.now <= t.now && s.usedRunIds <= t.usedRunIds
  }

  lemma LocalMoveKeepsExclusion(hash: Hash, s: State, t: State, x: Id)
    requires Inv(hash, s) && IsLocalMove(s, t, x)
    requires SessionOk(hash, t, x, t.sessions[x])
    requires x in s.sessions && HoldsLock(s.sessions[x]) ==>
               HoldsLock(t.sessions[x]) && t.sessions[x].job == s.sessions[x].job
    requires HoldsRow(t.sessions[x]) ==>
               || !RowHeld(s, t.sessions[x].schedule)
               || (x in s.sessions && HoldsRow(s.sessions[x]) && s.sessions[x].schedule == t.sessions[x].schedule)
    requires NamesRun(t.sessions[x]) ==>
               || t.sessions[x].run !in s.usedRunIds
               || (x in s.sessions && NamesRun(s.sessions[x]) && s.sessions[x].run == t.sessions[x].run)
    ensures LocksOwned(hash, t) && RowLocksExclusive(t) && RunsExclusive(t) && RowsOk(t)
  {
  }

  predicate BeforeLock(m: Move) {
    || m.Open? || m.PickNew? || m.NoNew? || m.PickDue? || m.NoDue? || m.Compute? || m.UpdateNew? || m.License?
    || m.OpenRunNow?
  }

  lemma EarlyMoveOk(hash: Hash, s: State, x: Id, m: Move)
    requires BeforeLock(m) && CanMove(s, x, m) && (x in s.sessions ==> SessionOk(hash, s, x, s.sessions[x]))
    ensures SessionOk(hash, s, x, Moved(s, x, m))
  {
  }

  lemma LateMoveOk(hash: Hash, s: State, x: Id, m: Move)
    requires !BeforeLock(m) && CanMove(s, x, m) && SessionOk(hash, s, x, s.sessions[x])
    requires s.runs.Keys <= s.usedRunIds
    ensures SessionOk(hash, s.(usedRunIds := s.usedRunIds + Drawn(m)), x, Moved(s, x, m))
  {
  }

  /** What a move keeps and what it newly takes. */
  lemma MovedHolds(s: State, x: Id, m: Move)
    requires CanMove(s, x, m)
    ensures x in s.sessions && HoldsLock(s.sessions[x]) ==>
              HoldsLock(Moved(s, x, m)) && Moved(s, x, m).job == s.sessions[x].job
    ensures HoldsRow(Moved(s, x, m)) ==>
              || !RowHeld(s, Moved(s, x, m).schedule)
              || (x in s.sessions && HoldsRow(s.sessions[x]) && s.sessions[x].schedule == Moved(s, x, m).schedule)
    ensures NamesRun(Moved(s, x, m)) ==>
              || Moved(s, x, m).run !in s.usedRunIds
              || (x in s.sessions && NamesRun(s.sessions[x]) && s.sessions[x].run == Moved(s, x, m).run)
  {
  }

  lemma MovedOk(hash: Hash, s: State, x: Id, m: Move)
    requires SessionsOk(hash, s) && RowsOk(s) && CanMove(s, x, m)
    ensures SessionOk(hash, DoAct(s, x, m), x, Moved(s, x, m))
  {
    if BeforeLock(m) {
      EarlyMoveOk(hash, s, x, m);
      UndisturbedOk(hash, s, DoAct(s, x, m), x, Moved(s, x, m));
    } else {
      LateMoveOk(hash, s, x, m);
      UndisturbedOk(hash, s.(usedRunIds := s.usedRunIds + Drawn(m)), DoAct(s, x, m), x, Moved(s, x, m));
    }
  }

  lemma MoveIsLocal(hash: Hash, s: State, x: Id, m: Move)
    requires CanMove(s, x, m)
    ensures IsLocalMove(s, DoAct(s, x, m), x) && OnlyMoves(hash, s, DoAct(s, x, m), x)
    ensures DoAct(s, x, m).sessions[x] == Moved(s, x, m)
  {
  }

  lemma MovePreserved(hash: Hash, s: State, x: Id, m: Move)
    requires Inv(hash, s) && CanMove(s, x, m)
    ensures Inv(hash, DoAct(s, x, m))
  {
    var t := DoAct(s, x, m);
    MovedOk(hash, s, x, m);
    MoveIsLocal(hash, s, x, m);
    MovedHolds(s, x, m);
    SessionsKept(hash, s, t, x);
    LocalMoveKeepsExclusion(hash, s, t, x);
  }

  /** A step of session `x` that takes no new row lock and names no new run. */
  lemma ReleasesOnly(s: State, t: State, x: Id)
    requires RowLocksExclusive(s) && RunsExclusive(s)
    requires forall y :: y in t.sessions ==> y in s.sessions && (y != x ==> t.sessions[y] == s.sessions[y])
    requires x in t.sessions && HoldsRow(t.sessions[x]) ==>
               HoldsRow(s.sessions[x]) && t.sessions[x].schedule == s.sessions[x].schedule
    requires x in t.sessions && NamesRun(t.sessions[x]) ==>
               NamesRun(s.sessions[x]) && t.sessions[x].run == s.sessions[x].run
    ensures RowLocksExclusive(t) && RunsExclusive(t)
  {
  }

  lemma CommitPreserved(hash: Hash, s: State, x: Id)
    requires Inv(hash, s) && x in s.sessions && Committing(s.sessions[x])
    ensures Inv(hash, DoCommit(s, x))
  {
    var t := DoCommit(s, x);
    CommitKeepsTables(hash, s, x);
    CommitLeavesOthers(hash, s, x);
    SessionsKept(hash, s, t, x);
    ReleasesOnly(s, t, x);
  }

  lemma CommitKeepsTables(hash: Hash, s: State, x: Id)
    requires x in s.sessions && SessionOk(hash, s, x, s.sessions[x]) && Committing(s.sessions[x])
    requires LocksOwned(hash, s) && RowsOk(s)
    ensures LocksOwned(hash, DoCommit(s, x)) && RowsOk(DoCommit(s, x))
    ensures SessionOk(hash, DoCommit(s, x), x, DoCommit(s, x).sessions[x])
  {
  }

  /** A commit writes no row another session has locked, names or owns. */
  lemma CommitLeavesOthers(hash: Hash, s: State, x: Id)
    requires x in s.sessions && Committing(s.sessions[x]) && SessionOk(hash, s, x, s.sessions[x])
    requires RowLocksExclusive(s) && RunsExclusive(s)
    ensures OnlyMoves(hash, s, DoCommit(s, x), x)
  {
  }

  lemma TryLockPreserved(hash: Hash, s: State, x: Id)
    requires Inv(hash, s) && At(s, x, Cleared)
    ensures Inv(hash, DoTryLock(hash, s, x))
  {
    var t := DoTryLock(hash, s, x);
    assert SessionOk(hash, s, x, s.sessions[x]);
    TryLockOwned(hash, s, x);
    TryLockOk(hash, s, x);
    SessionsKept(hash, s, t, x);
    ReleasesOnly(s, t, x);
  }

  lemma TryLockOwned(hash: Hash, s: State, x: Id)
    requires At(s, x, Cleared) && LocksOwned(hash, s)
    ensures LocksOwned(hash, DoTryLock(hash, s, x)) && OnlyMoves(hash, s, DoTryLock(hash, s, x), x)
  {
  }

  lemma TryLockOk(hash: Hash, s: State, x: Id)
    requires At(s, x, Cleared) && SessionOk(hash, s, x, s.sessions[x])
    ensures SessionOk(hash, DoTryLock(hash, s, x), x, DoTryLock(hash, s, x).sessions[x])
  {
  }

  lemma UnlockPreserved(hash: Hash, s: State, x: Id)
    requires Inv(hash, s) && At(s, x, FinishPending)
    ensures Inv(hash, DoUnlock(hash, s, x))
  {
    var t := DoUnlock(hash, s, x);
    assert SessionOk(hash, s, x, s.sessions[x]);
    UnlockOwned(hash, s, x);
    SessionsKept(hash, s, t, x);
    ReleasesOnly(s, t, x);
  }

  lemma UnlockOwned(hash: Hash, s: State, x: Id)
    requires At(s, x, FinishPending) && SessionsOk(hash, s) && LocksOwned(hash, s)
    ensures LocksOwned(hash, DoUnlock(hash, s, x)) && OnlyMoves(hash, s, DoUnlock(hash, s, x), x)
    ensures SessionOk(hash, DoUnlock(hash, s, x), x, DoUnlock(hash, s, x).sessions[x])
  {
    assert SessionOk(hash, s, x, s.sessions[x]);
  }

  lemma ClosePreserved(hash: Hash, s: State, x: Id)
    requires Inv(hash, s)
    ensures Inv(hash, DoClose(s, x))
  {
    var t := DoClose(s, x);
    SessionsKept(hash, s, t, x);
    ReleasesOnly(s, t, x);
  }

  lemma EditPreserved(hash: Hash, s: State, a: Edit)
    requires Inv(hash, s) && CanEdit(s, a)
    ensures Inv(hash, Do(hash, s, Admin(a)))
  {
  }

  lemma StepPreserves(hash: Hash, s: State, e: Step)
    requires Inv(hash, s) && Can(s, e)
    ensures Inv(hash, Do(hash, s, e))
  {
    match e
    case Act(x, m) => MovePreserved(hash, s, x, m);
    case Commit(x) => CommitPreserved(hash, s, x);
    case TryLock(x) => TryLockPreserved(hash, s, x);
    case Unlock(x) => UnlockPreserved(hash, s, x);
    case Close(x) => ClosePreserved(hash, s, x);
    case Admin(a) => EditPreserved(hash, s, a);
    case Tick(_) =>
    case Recover =>
  }

  lemma {:induction false} InvAlways(hash: Hash, states: seq<State>, steps: seq<Step>, n: nat)
    requires IsRun(hash, states, steps) && n <= |steps|
    ensures Inv(hash, states[n])
  {
    if n > 0 {
      InvAlways(hash, states, steps, n - 1);
      StepPreserves(hash, states[n - 1], steps[n - 1]);
    }
  }
}
