/** The life of a run row over every run of the protocol: who finishes it, what recovery does to it, and when two rows
    of one job are running. */
module SchedulerRows {
  import opened Options
  import opened Scheduler
  import opened SchedulerSafety

  ghost predicate Owned(s: State, r: Id) {
    exists x :: x in s.sessions && OwnsRun(s.sessions[x]) && s.sessions[x].run == r
  }

  predicate IsRunning(s: State, r: Id) {
    r in s.runs && s.runs[r].status.Running?
  }

  predicate IsTerminal(s: State, r: Id) {
    r in s.runs && !s.runs[r].status.Running?
  }

  /** A row still marked running that no connection will ever finish. */
  ghost predicate Orphan(s: State, r: Id) {
    IsRunning(s, r) && !Owned(s, r)
  }

  // ------------------------------------------------------------------------------- one step

  /** The commit of the outcome of `r` by the connection that owns it. */
  predicate FinalCommit(s: State, e: Step, r: Id) {
    e.Commit? && e.x in s.sessions && s.sessions[e.x].pc.Unlocked? && s.sessions[e.x].run == r
  }

  /** The row that connection `x` writes at its final commit. */
  function Written(row: Run, v: Session): Run {
    row.(finishedAt := Some(v.txn), status := v.status, error := v.error)
  }

  /** The final commit, and what it writes differs from what is there. */
  predicate Overwrites(s: State, e: Step, r: Id) {
    FinalCommit(s, e, r) && r in s.runs && Written(s.runs[r], s.sessions[e.x]) != s.runs[r]
  }

  /** A row changes in a step exactly when recovery finds it running or its owner's final commit writes something else;
      afterwards it is not running. It never disappears and keeps its job, its trigger and its start. */
  lemma RowStep(hash: Hash, s: State, e: Step, r: Id)
    requires Inv(hash, s) && Can(s, e) && r in s.runs
    ensures
      var t := Do(hash, s, e);
      && r in t.runs && t.runs[r].jobId == s.runs[r].jobId && t.runs[r].trigger == s.runs[r].trigger
      && t.runs[r].startedAt == s.runs[r].startedAt
      && (t.runs[r] != s.runs[r] <==> (e.Recover? && IsRunning(s, r)) || Overwrites(s, e, r))
      && (t.runs[r] != s.runs[r] ==> IsTerminal(t, r) && t.runs[r].finishedAt.Some?)
      && (FinalCommit(s, e, r) ==> t.runs[r] == Written(s.runs[r], s.sessions[e.x]))
  {
    if e.Commit? {
      assert SessionOk(hash, s, e.x, s.sessions[e.x]);
    }
  }

  /** The final commit leaves a terminal row that nobody owns. */
  lemma FinalCommitDisowns(hash: Hash, s: State, e: Step, r: Id)
    requires Inv(hash, s) && Can(s, e) && FinalCommit(s, e, r)
    ensures IsTerminal(Do(hash, s, e), r) && !Owned(Do(hash, s, e), r)
    ensures Do(hash, s, e).runs[r].status == s.sessions[e.x].status
    ensures Do(hash, s, e).runs[r].error == s.sessions[e.x].error
  {
    assert SessionOk(hash, s, e.x, s.sessions[e.x]);
    var t := Do(hash, s, e);
    forall y | y in t.sessions && OwnsRun(t.sessions[y]) ensures t.sessions[y].run != r {
      assert y != e.x && t.sessions[y] == s.sessions[y] && NamesRun(s.sessions[y]) && NamesRun(s.sessions[e.x]);
    }
  }

  lemma MoverOwned(s: State, x: Id, m: Move)
    requires CanMove(s, x, m) && OwnsRun(Moved(s, x, m))
    ensures x in s.sessions && OwnsRun(s.sessions[x]) && s.sessions[x].run == Moved(s, x, m).run
  {
  }

  /** A commit makes its connection the owner of a new row only. */
  lemma CommitterOwnsNew(hash: Hash, s: State, x: Id)
    requires x in s.sessions && Committing(s.sessions[x]) && SessionOk(hash, s, x, s.sessions[x])
    ensures OwnsRun(DoCommit(s, x).sessions[x]) ==> DoCommit(s, x).sessions[x].run !in s.runs
  {
  }

  /** No step gives an existing row a new owner. */
  lemma NoNewOwner(hash: Hash, s: State, e: Step, r: Id)
    requires Inv(hash, s) && Can(s, e) && r in s.runs && Owned(Do(hash, s, e), r)
    ensures Owned(s, r)
  {
    var t := Do(hash, s, e);
    var x :| x in t.sessions && OwnsRun(t.sessions[x]) && t.sessions[x].run == r;
    match e
    case Act(y, m) =>
      if y == x {
        MoverOwned(s, x, m);
      }
    case Commit(y) =>
      if y == x {
        assert SessionOk(hash, s, x, s.sessions[x]);
        CommitterOwnsNew(hash, s, x);
      }
    case _ =>
  }

  /** A terminal row that no connection owns is never touched again, and no connection comes to own it. */
  lemma UnownedStep(hash: Hash, s: State, e: Step, r: Id)
    requires Inv(hash, s) && Can(s, e) && IsTerminal(s, r) && !Owned(s, r)
    ensures IsTerminal(Do(hash, s, e), r) && !Owned(Do(hash, s, e), r) && Do(hash, s, e).runs[r] == s.runs[r]
  {
    RowStep(hash, s, e, r);
    if Owned(Do(hash, s, e), r) {
      NoNewOwner(hash, s, e, r);
    }
    if FinalCommit(s, e, r) {
      assert OwnsRun(s.sessions[e.x]);
    }
  }

  // ------------------------------------------------------------------------------- every run

  /** A row never disappears, keeps its job and its start, and once it has left running it never runs again. */
  lemma {:induction false} RowsNeverRunAgain(hash: Hash, states: seq<State>, steps: seq<Step>, m: nat, n: nat, r: Id)
    requires IsRun(hash, states, steps) && m <= n <= |steps| && r in states[m].runs
    ensures r in states[n].runs && states[n].runs[r].jobId == states[m].runs[r].jobId
    ensures states[n].runs[r].startedAt == states[m].runs[r].startedAt
    ensures states[n].runs[r].trigger == states[m].runs[r].trigger
    ensures IsTerminal(states[m], r) ==> IsTerminal(states[n], r)
    decreases n
  {
    if m < n {
      RowsNeverRunAgain(hash, states, steps, m, n - 1, r);
      InvAlways(hash, states, steps, n - 1);
      RowStep(hash, states[n - 1], steps[n - 1], r);
    }
  }

  /** A terminal row that no connection owns is frozen for ever. */
  lemma {:induction false} UnownedRowsAreFrozen(hash: Hash, states: seq<State>, steps: seq<Step>, m: nat, n: nat, r: Id)
    requires IsRun(hash, states, steps) && m <= n <= |steps| && IsTerminal(states[m], r) && !Owned(states[m], r)
    ensures IsTerminal(states[n], r) && !Owned(states[n], r) && states[n].runs[r] == states[m].runs[r]
    decreases n
  {
    if m < n {
      UnownedRowsAreFrozen(hash, states, steps, m, n - 1, r);
      InvAlways(hash, states, steps, n - 1);
      UnownedStep(hash, states[n - 1], steps[n - 1], r);
    }
  }

  ghost predicate Overwritten(states: seq<State>, steps: seq<Step>, m: nat, n: nat, r: Id)
    requires n <= |steps| < |states|
  {
    exists k :: m <= k < n && Overwrites(states[k], steps[k], r)
  }

  lemma OverwrittenIsUnowned(hash: Hash, states: seq<State>, steps: seq<Step>, m: nat, n: nat, r: Id)
    requires IsRun(hash, states, steps) && n <= |steps| && Overwritten(states, steps, m, n, r)
    ensures !Owned(states[n], r)
  {
    var k :| m <= k < n && Overwrites(states[k], steps[k], r);
    InvAlways(hash, states, steps, k);
    FinalCommitDisowns(hash, states[k], steps[k], r);
    UnownedRowsAreFrozen(hash, states, steps, k + 1, n, r);
  }

  /** Exactly when a terminal row changes: when the final commit of the connection that still owns it writes something
      else. That happens once at most. */
  lemma {:induction false} TerminalRowsChangeIff(hash: Hash, states: seq<State>, steps: seq<Step>, m: nat, n: nat,
                                                 r: Id)
    requires IsRun(hash, states, steps) && m <= n <= |steps| && IsTerminal(states[m], r)
    ensures IsTerminal(states[n], r)
    ensures states[n].runs[r] != states[m].runs[r] <==> Overwritten(states, steps, m, n, r)
    decreases n
  {
    if m < n {
      TerminalRowsChangeIff(hash, states, steps, m, n - 1, r);
      InvAlways(hash, states, steps, n - 1);
      RowStep(hash, states[n - 1], steps[n - 1], r);
      OverwrittenStep(hash, states, steps, m, n - 1, r);
    }
  }

  /** A row is overwritten once at most. */
  lemma OverwrittenStep(hash: Hash, states: seq<State>, steps: seq<Step>, m: nat, n: nat, r: Id)
    requires IsRun(hash, states, steps) && m <= n < |steps|
    ensures Overwritten(states, steps, m, n + 1, r)
            <==> Overwritten(states, steps, m, n, r) || Overwrites(states[n], steps[n], r)
    ensures !(Overwritten(states, steps, m, n, r) && Overwrites(states[n], steps[n], r))
  {
    if Overwrites(states[n], steps[n], r) {
      assert Owned(states[n], r) by {
        assert OwnsRun(states[n].sessions[steps[n].x]);
      }
      if Overwritten(states, steps, m, n, r) {
        OverwrittenIsUnowned(hash, states, steps, m, n, r);
      }
    }
  }

  // ------------------------------------------------------------------------------- recovery

  /** No connection is between its claim and its final commit. */
  ghost predicate Quiet(s: State) {
    forall x :: x in s.sessions ==> !OwnsRun(s.sessions[x])
  }

  ghost predicate OwnedRunning(s: State) {
    forall x :: x in s.sessions && OwnsRun(s.sessions[x]) && s.sessions[x].run in s.runs ==>
                  s.runs[s.sessions[x].run].status.Running?
  }

  /** Recovery leaves every live connection its running row exactly when there is no such connection. */
  lemma RecoveryIsSafeIffQuiet(hash: Hash, s: State)
    requires Inv(hash, s) && Can(s, Recover)
    ensures OwnedRunning(Do(hash, s, Recover)) <==> Quiet(s)
  {
    if !Quiet(s) {
      var x :| x in s.sessions && OwnsRun(s.sessions[x]);
      assert SessionOk(hash, s, x, s.sessions[x]);
      assert s.sessions[x].run in s.runs;
    }
  }

  /** Recovery fails exactly the running rows, stamps them, and keeps an error already recorded. Those are exactly the
      orphans if and only if no live connection owns a running row. */
  lemma RecoveryFailsExactlyOrphans(hash: Hash, s: State)
    requires Inv(hash, s) && Can(s, Recover)
    ensures
      var t := Do(hash, s, Recover);
      && t.runs.Keys == s.runs.Keys
      && forall r :: r in s.runs ==>
           if s.runs[r].status.Running?
           then && t.runs[r].status.Failed? && t.runs[r].finishedAt == Some(s.now)
                && t.runs[r].error == Some(s.runs[r].error.GetOr(Interrupted))
                && t.runs[r].jobId == s.runs[r].jobId && t.runs[r].startedAt == s.runs[r].startedAt
           else t.runs[r] == s.runs[r]
    ensures (forall r :: r in s.runs ==> (Do(hash, s, Recover).runs[r] != s.runs[r] <==> Orphan(s, r)))
            <==> (forall r :: r in s.runs && s.runs[r].status.Running? ==> !Owned(s, r))
  {
    var t := Do(hash, s, Recover);
    forall r | r in s.runs ensures t.runs[r] != s.runs[r] <==> s.runs[r].status.Running? {
    }
  }

  /** Recovery takes the row of a connection that is still at work. */
  ghost predicate TakesOwned(s: State, e: Step, r: Id) {
    e.Recover? && IsRunning(s, r) && Owned(s, r)
  }

  ghost predicate TakenWithin(states: seq<State>, steps: seq<Step>, n: nat, r: Id)
    requires n <= |steps| < |states|
  {
    exists k :: 0 <= k < n && TakesOwned(states[k], steps[k], r)
  }

  lemma OwnedTerminalStep(hash: Hash, s: State, e: Step, r: Id)
    requires Inv(hash, s) && Can(s, e) && IsTerminal(Do(hash, s, e), r) && Owned(Do(hash, s, e), r)
    ensures (IsTerminal(s, r) && Owned(s, r)) || TakesOwned(s, e, r)
  {
    var t := Do(hash, s, e);
    if r !in s.runs {
      NewRowIsOwnedOrFailed(hash, s, e, r);
    } else {
      RowStep(hash, s, e, r);
      NoNewOwner(hash, s, e, r);
      if FinalCommit(s, e, r) {
        FinalCommitDisowns(hash, s, e, r);
      }
    }
  }

  /** A new row is running and owned, or failed and nobody's. */
  lemma NewRowIsOwnedOrFailed(hash: Hash, s: State, e: Step, r: Id)
    requires Inv(hash, s) && Can(s, e) && r !in s.runs && r in Do(hash, s, e).runs
    ensures IsRunning(Do(hash, s, e), r) <==> Owned(Do(hash, s, e), r)
  {
    var t := Do(hash, s, e);
    assert e.Commit? && r == s.sessions[e.x].run && r == t.sessions[e.x].run;
    forall y | y in t.sessions && y != e.x && OwnsRun(t.sessions[y]) ensures t.sessions[y].run != r {
      assert SessionOk(hash, s, y, s.sessions[y]);
    }
  }

  /** A connection whose row is terminal has lost it to a recovery that ran while it was at work. */
  lemma {:induction false} OwnedTerminalWasTaken(hash: Hash, states: seq<State>, steps: seq<Step>, n: nat, r: Id)
    requires IsRun(hash, states, steps) && n <= |steps| && IsTerminal(states[n], r) && Owned(states[n], r)
    ensures TakenWithin(states, steps, n, r)
  {
    if n > 0 {
      InvAlways(hash, states, steps, n - 1);
      OwnedTerminalStep(hash, states[n - 1], steps[n - 1], r);
      if TakesOwned(states[n - 1], steps[n - 1], r) {
        assert TakenWithin(states, steps, n, r);
      } else {
        OwnedTerminalWasTaken(hash, states, steps, n - 1, r);
        var k :| 0 <= k < n - 1 && TakesOwned(states[k], steps[k], r);
        assert TakenWithin(states, steps, n, r);
      }
    }
  }

  /** Unless a recovery takes the row from a connection at work, it leaves running at most once and is frozen from then
      on. */
  lemma RowsOnlyFinish(hash: Hash, states: seq<State>, steps: seq<Step>, m: nat, n: nat, r: Id)
    requires IsRun(hash, states, steps) && m <= n <= |steps| && IsTerminal(states[m], r)
    requires !TakenWithin(states, steps, m, r)
    ensures IsTerminal(states[n], r) && states[n].runs[r] == states[m].runs[r]
  {
    if Owned(states[m], r) {
      OwnedTerminalWasTaken(hash, states, steps, m, r);
    }
    UnownedRowsAreFrozen(hash, states, steps, m, n, r);
  }

  // ------------------------------------------------------------------------------- owners and orphans

  ghost predicate OrphanedBy(s: State, e: Step, r: Id) {
    e.Close? && e.x in s.sessions && OwnsRun(s.sessions[e.x]) && s.sessions[e.x].run == r
  }

  /** Session `x` still owns run `r`, or has just finished it. */
  predicate OwnsOrFinished(t: State, x: Id, r: Id) {
    && x in t.sessions && r in t.runs
    && ((OwnsRun(t.sessions[x]) && t.sessions[x].run == r) || !t.runs[r].status.Running?)
  }

  lemma OwnerMoves(s: State, x: Id, y: Id, m: Move)
    requires CanMove(s, y, m) && x in s.sessions && OwnsRun(s.sessions[x]) && s.sessions[x].run in s.runs
    ensures OwnsOrFinished(DoAct(s, y, m), x, s.sessions[x].run)
  {
  }

  lemma OwnerCommits(s: State, x: Id, y: Id)
    requires y in s.sessions && Committing(s.sessions[y])
    requires x in s.sessions && OwnsRun(s.sessions[x]) && s.sessions[x].run in s.runs
    requires UpdatePending(s.sessions[x]) ==> !s.sessions[x].status.Running?
    ensures OwnsOrFinished(DoCommit(s, y), x, s.sessions[x].run)
  {
  }

  lemma OwnerStays(hash: Hash, s: State, e: Step, x: Id)
    requires Inv(hash, s) && Can(s, e) && x in s.sessions && OwnsRun(s.sessions[x]) && e != Close(x)
    ensures OwnsOrFinished(Do(hash, s, e), x, s.sessions[x].run)
  {
    assert SessionOk(hash, s, x, s.sessions[x]);
    match e
    case Act(y, m) => OwnerMoves(s, x, y, m);
    case Commit(y) => OwnerCommits(s, x, y);
    case _ =>
  }

  lemma OrphanStep(hash: Hash, s: State, e: Step, r: Id)
    requires Inv(hash, s) && Can(s, e) && Orphan(Do(hash, s, e), r)
    ensures Orphan(s, r) || OrphanedBy(s, e, r)
  {
    if r !in s.runs {
      NewRowIsOwnedOrFailed(hash, s, e, r);
    } else {
      RowStep(hash, s, e, r);
      if Owned(s, r) {
        var x :| x in s.sessions && OwnsRun(s.sessions[x]) && s.sessions[x].run == r;
        if e != Close(x) {
          OwnerStays(hash, s, e, x);
        }
      }
    }
  }

  /** One of the first `n` steps closed the connection that owned `r`. */
  ghost predicate OrphanedWithin(states: seq<State>, steps: seq<Step>, n: nat, r: Id)
    requires n <= |steps| < |states|
  {
    exists k :: 0 <= k < n && OrphanedBy(states[k], steps[k], r)
  }

  lemma OrphanedEarlier(states: seq<State>, steps: seq<Step>, m: nat, n: nat, r: Id)
    requires m <= n <= |steps| < |states|
    ensures OrphanedWithin(states, steps, m, r) ==> OrphanedWithin(states, steps, n, r)
  {
  }

  /** Every running row is owned by a live connection, was an orphan from the start, or was orphaned by the close of
      the connection that owned it. */
  lemma {:induction false} RunningRowsAreAccountedFor(hash: Hash, states: seq<State>, steps: seq<Step>, n: nat, r: Id)
    requires IsRun(hash, states, steps) && n <= |steps| && IsRunning(states[n], r)
    ensures Owned(states[n], r) || Orphan(states[0], r) || OrphanedWithin(states, steps, n, r)
  {
    if n > 0 && Orphan(states[n], r) {
      InvAlways(hash, states, steps, n - 1);
      OrphanStep(hash, states[n - 1], steps[n - 1], r);
      if OrphanedBy(states[n - 1], steps[n - 1], r) {
        assert OrphanedWithin(states, steps, n, r);
      } else {
        RunningRowsAreAccountedFor(hash, states, steps, n - 1, r);
        OrphanedEarlier(states, steps, n - 1, n, r);
      }
    }
  }

  // ------------------------------------------------------------------------------- two running rows of one job

  predicate RunningFor(s: State, r: Id, job: Id) {
    IsRunning(s, r) && s.runs[r].jobId == job
  }

  ghost predicate TwoRunning(s: State, job: Id) {
    exists q, r :: q != r && RunningFor(s, q, job) && RunningFor(s, r, job)
  }

  /** A running row whose connection is gone, or has given up the lock and has not committed yet. */
  ghost predicate Lingers(s: State, r: Id) {
    Orphan(s, r) || exists x :: x in s.sessions && s.sessions[x].pc.Unlocked? && s.sessions[x].run == r
  }

  /** A running row that does not linger: its owner holds the job's lock. */
  lemma HeldOrLingers(hash: Hash, s: State, r: Id) returns (x: Id)
    requires Inv(hash, s) && IsRunning(s, r)
    ensures Lingers(s, r) || (x in s.sessions && HoldsLock(s.sessions[x]) && OwnsRun(s.sessions[x])
                              && s.sessions[x].run == r && hash(s.runs[r].jobId) in s.locks
                              && s.locks[hash(s.runs[r].jobId)] == x)
  {
    x := 0;
    if Owned(s, r) {
      x :| x in s.sessions && OwnsRun(s.sessions[x]) && s.sessions[x].run == r;
      assert SessionOk(hash, s, x, s.sessions[x]);
    }
  }

  /** Of two running rows of one job, one lingers. */
  lemma OneLingers(hash: Hash, s: State, q: Id, r: Id)
    requires Inv(hash, s) && q != r && IsRunning(s, q) && IsRunning(s, r) && s.runs[q].jobId == s.runs[r].jobId
    ensures Lingers(s, q) || Lingers(s, r)
  {
    var x := HeldOrLingers(hash, s, q);
    var y := HeldOrLingers(hash, s, r);
  }

  /** Over every run: at most one running row of a job has a connection that holds the job's lock; any other is an
      orphan, or its connection is between unlock and final commit. */
  lemma RunningRowsLinger(hash: Hash, states: seq<State>, steps: seq<Step>, n: nat, q: Id, r: Id)
    requires IsRun(hash, states, steps) && n <= |steps| && q != r
    requires IsRunning(states[n], q) && IsRunning(states[n], r) && states[n].runs[q].jobId == states[n].runs[r].jobId
    ensures Lingers(states[n], q) || Lingers(states[n], r)
  {
    InvAlways(hash, states, steps, n);
    OneLingers(hash, states[n], q, r);
  }

  /** A claim leaves its job with two running rows exactly when a row of the job lingers. */
  lemma ClaimLeavesTwoIff(hash: Hash, s: State, x: Id)
    requires Inv(hash, s) && x in s.sessions && Claims(s.sessions[x])
    ensures TwoRunning(DoCommit(s, x), s.sessions[x].job)
            <==> exists r :: RunningFor(s, r, s.sessions[x].job) && Lingers(s, r)
  {
    var v, t := s.sessions[x], DoCommit(s, x);
    assert SessionOk(hash, s, x, v);
    assert RunningFor(t, v.run, v.job);
    forall r | RunningFor(s, r, v.job) ensures Lingers(s, r) && r != v.run && RunningFor(t, r, v.job) {
      var y := HeldOrLingers(hash, s, r);
    }
    if TwoRunning(t, v.job) {
      var q: Id, r: Id :| q != r && RunningFor(t, q, v.job) && RunningFor(t, r, v.job);
      assert RunningFor(s, if q == v.run then r else q, v.job);
    }
  }

  /** No other step gives a job a second running row. */
  lemma OnlyClaimsAdd(hash: Hash, s: State, e: Step, job: Id)
    requires Inv(hash, s) && Can(s, e) && TwoRunning(Do(hash, s, e), job)
    ensures TwoRunning(s, job) || (e.Commit? && Claims(s.sessions[e.x]) && s.sessions[e.x].job == job)
  {
    var t := Do(hash, s, e);
    var q: Id, r: Id :| q != r && RunningFor(t, q, job) && RunningFor(t, r, job);
    if q in s.runs && r in s.runs {
      RowStep(hash, s, e, q);
      RowStep(hash, s, e, r);
      assert RunningFor(s, q, job) && RunningFor(s, r, job);
    }
  }
}
