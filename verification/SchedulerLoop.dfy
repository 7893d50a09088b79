/** `_run_due_schedule` and `run_job_once` of worker/app/scheduler.py, statement by statement, amid whatever the other
    connections do. Every execution of them, whichever statement raises, is a stretch of a run of the machine that ends
    with the connection closed, and what it reports says what the connection has done in that stretch. */
module SchedulerLoop {
  import opened Options
  import opened Scheduler
  import opened SchedulerSafety
  import opened SchedulerRows
  import opened SchedulerDeeds
  import opened SchedulerPicks

  lemma StepLeaves(hash: Hash, s: State, e: Step, x: Id)
    requires Can(s, e) && Taker(e) != Some(x)
    ensures x in Do(hash, s, e).sessions <==> x in s.sessions
    ensures x in s.sessions ==> Do(hash, s, e).sessions[x] == s.sessions[x]
  {
  }

  /** A connection is where it was after any number of steps of others. */
  lemma {:induction false} OthersLeave(hash: Hash, states: seq<State>, steps: seq<Step>, m: nat, n: nat, x: Id)
    requires IsRun(hash, states, steps) && m <= n <= |steps| && NotBy(steps[..n], m, x)
    ensures x in states[n].sessions <==> x in states[m].sessions
    ensures x in states[m].sessions ==> states[n].sessions[x] == states[m].sessions[x]
  {
    if m < n {
      assert steps[..n][n - 1] == steps[n - 1];
      assert forall i :: m <= i < n - 1 ==> steps[..n - 1][i] == steps[..n][i];
      OthersLeave(hash, states, steps, m, n - 1, x);
      StepLeaves(hash, states[n - 1], steps[n - 1], x);
    }
  }

  /** How a call ended. */
  datatype Ended =
    | Initialised | NothingDue | Disabled | Skipped | Refused | Busy | Underway | Finished(run: Id, status: Status)
    | Raised

  /** The statements of a call that may raise. At a commit that raises, nothing is committed; a commit whose answer is
      lost is one after which the next statement raises. */
  datatype Point =
    | AtConnect | AtSelectNew | AtUpdateSchedule | AtCommitSchedule | AtSelectDue | AtLicense
    | AtDisableConnect | AtDisable | AtDisableInsert | AtDisableCommit
    | AtLock | AtInsertRun | AtCommitClaim | AtAuditStart | InExecution | AtUpdateRun | AtUnlock | AtCommitRun
    | AtAuditEnd

  predicate DisableRaises(raises: set<Point>) {
    AtDisable in raises || AtDisableInsert in raises || AtDisableCommit in raises
  }

  /** A statement raises before anything is committed. */
  predicate EarlyRaises(raises: set<Point>) {
    || AtConnect in raises || AtSelectNew in raises || AtUpdateSchedule in raises || AtCommitSchedule in raises
    || AtSelectDue in raises || AtLicense in raises || AtDisableConnect in raises || AtLock in raises
    || AtInsertRun in raises || AtCommitClaim in raises
  }

  /** A statement raises between the claim and the commit of the outcome. */
  predicate RunRaises(raises: set<Point>) {
    || AtAuditStart in raises || InExecution in raises || AtUpdateRun in raises || AtUnlock in raises
    || AtCommitRun in raises
  }

  /** A call that has done this can have raised only at these statements. */
  predicate RaiseFits(did: seq<Deed>, raises: set<Point>) {
    if did == [] then EarlyRaises(raises)
    else if |did| == 1 && did[0].ClaimedRun? then RunRaises(raises)
    else AtAuditEnd in raises
  }

  function TickSlot(v: Session): Option<Slot> {
    if v.trigger.BySchedule? then Some(SlotOf(v)) else None
  }

  /** What the body of a job returned: success, or a failure with its text. */
  datatype Outcome = Outcome(status: Status, error: Option<Reason>) {
    predicate Valid() {
      (status.Success? && error.None?) || (status.Failed? && error.Some?)
    }
  }

  /** What the surroundings of a tick come up with: `next` is what the cron expression gives, None if it does not parse,
      and `reason` the text that is reported then. */
  datatype Answers = Answers(next: Time -> Option<Time>, reason: Reason, allowed: bool, outcome: Outcome,
                             raises: set<Point>)
  {
    ghost predicate Valid() {
      outcome.Valid() && forall t :: next(t).Some? ==> t < next(t).value
    }

    /** The cron expression does not parse, at some time. */
    ghost predicate Unparsable() {
      exists t :: next(t).None?
    }
  }

  /** What a call that got past the licence check has done, by how it ended. */
  predicate Ran(ended: Ended, did: seq<Deed>, claim: Deed, o: Outcome)
    requires claim.ClaimedRun?
  {
    var conclusion := ConcludedRun(claim.run, o.status, o.error);
    match ended
    case Busy => did == []
    case Finished(run, status) => run == claim.run && status == o.status && did == [claim, conclusion]
    case Raised => did == [] || did == [claim] || did == [claim, conclusion]
    case _ => false
  }

  predicate RanSlot(ended: Ended, did: seq<Deed>, o: Outcome) {
    did != [] && did[0].ClaimedRun? && did[0].taken.Some? && Ran(ended, did, did[0], o)
  }

  predicate Disables(did: seq<Deed>, reason: Reason) {
    |did| == 1 && did[0].DisabledSchedule? && did[0].error == Some(reason)
  }

  /** What a tick has done, by how it ended. */
  predicate TickDid(ended: Ended, did: seq<Deed>, reason: Reason, o: Outcome) {
    match ended
    case Initialised => |did| == 1 && did[0].GaveDueTime?
    case NothingDue => did == []
    case Disabled => did == [] || Disables(did, reason)
    case Skipped => |did| == 1 && did[0].SkippedSlot?
    case Busy => did == []
    case Finished(_, _) => RanSlot(ended, did, o)
    case Raised => did == [] || (|did| == 1 && did[0].SkippedSlot?) || RanSlot(ended, did, o)
    case _ => false
  }

  /** The due time a deed gives its schedule is one that the cron expression yields. */
  ghost predicate Computed(deed: Deed, next: Time -> Option<Time>) {
    match deed
    case ClaimedRun(_, _, Some(slot)) => exists t :: next(t) == Some(slot.at)
    case SkippedSlot(slot, _) => exists t :: next(t) == Some(slot.at)
    case GaveDueTime(_, at) => exists t :: next(t) == Some(at)
    case _ => true
  }

  lemma ConclusionIsFor(hash: Hash, s: State, x: Id)
    requires Inv(hash, s) && x in s.sessions && s.sessions[x].pc.Unlocked?
    ensures
      var v, runs := s.sessions[x], DoCommit(s, x).runs;
      v.run in runs && runs[v.run].jobId == v.job
  {
    assert SessionOk(hash, s, x, s.sessions[x]);
  }

  lemma JobTypeStays(hash: Hash, s: State, e: Step, job: Id)
    requires Can(s, e) && job in s.jobs
    ensures job in Do(hash, s, e).jobs && Do(hash, s, e).jobs[job].jobType == s.jobs[job].jobType
  {
  }

  lemma {:induction false} JobTypesStay(hash: Hash, states: seq<State>, steps: seq<Step>, m: nat, n: nat, job: Id)
    requires IsRun(hash, states, steps) && m <= n <= |steps| && job in states[m].jobs
    ensures job in states[n].jobs && states[n].jobs[job].jobType == states[m].jobs[job].jobType
  {
    if m < n {
      JobTypesStay(hash, states, steps, m, n - 1, job);
      JobTypeStays(hash, states[n - 1], steps[n - 1], job);
    }
  }

  /** The worker and its database; the history of the run so far, and what each connection has done in it. */
  class Cluster {
    ghost const hash: Hash
    ghost var states: seq<State>
    ghost var steps: seq<Step>
    ghost var deeds: Id -> seq<Deed>

    ghost predicate Stepped(i: nat)
      reads this
    {
      i + 1 < |states| && i < |steps| && Can(states[i], steps[i]) && states[i + 1] == Do(hash, states[i], steps[i])
    }

    ghost predicate Recorded(x: Id)
      reads this
    {
      |steps| < |states| && deeds(x) == Deeds(states, steps, |steps|, x)
    }

    /** The history is a run, and the deeds are those of its commits. */
    ghost predicate Valid()
      reads this
    {
      && |states| == |steps| + 1 && Init(states[0])
      && (forall i :: 0 <= i < |steps| ==> Stepped(i))
      && (forall x :: Recorded(x))
    }

    lemma ValidIsRun(x: Id)
      requires Valid()
      ensures IsRun(hash, states, steps) && deeds(x) == Deeds(states, steps, |steps|, x)
    {
      assert Recorded(x);
      forall i | 0 <= i < |steps| ensures Can(states[i], steps[i]) && states[i + 1] == Do(hash, states[i], steps[i]) {
        assert Stepped(i);
      }
    }

    ghost function Now(): State
      requires Valid()
      reads this
    {
      states[|steps|]
    }

    ghost constructor (hash: Hash, start: State)
      requires Init(start)
      ensures Valid() && states == [start] && steps == [] && forall x :: deeds(x) == []
    {
      this.hash := hash;
      states, steps, deeds := [start], [], x => [];
    }

    ghost method Take(x: Id, e: Step)
      requires Valid() && Can(Now(), e)
      modifies this
      ensures Valid() && steps == old(steps) + [e] && old(states) <= states && Now() == Do(hash, old(Now()), e)
      ensures Before() == old(Now()) && deeds(x) == OneMore(old(deeds)(x), old(Now()), e, x)
    {
      ghost var s, was := Now(), deeds;
      states := states + [Do(hash, s, e)];
      steps := steps + [e];
      deeds := (y: Id) => OneMore(was(y), s, e, y);
      forall i | 0 <= i < |steps| ensures Stepped(i) {
        assert i < |old(steps)| ==> old(Stepped(i));
      }
      forall y ensures Recorded(y) {
        assert old(Recorded(y));
        DeedsOfPrefix(old(states), old(steps), states, steps, |old(steps)|, y);
      }
    }

    /** Any number of steps of others. The body is one of the possibilities, and callers know only the contract. */
    ghost method Others(x: Id)
      requires Valid()
      modifies this
      ensures Valid() && old(steps) <= steps && old(states) <= states && NotBy(steps, |old(steps)|, x)
    {
    }

    /** Time passes and others work until the next statement of connection `x`. */
    ghost method Await(x: Id)
      requires Valid()
      modifies this
      ensures Valid() && old(steps) <= steps && old(states) <= states && deeds(x) == old(deeds)(x)
      ensures x in Now().sessions <==> x in old(Now()).sessions
      ensures x in Now().sessions ==> Now().sessions[x] == old(Now()).sessions[x]
    {
      assert Recorded(x);
      Others(x);
      ValidIsRun(x);
      assert steps[..|steps|] == steps && states[|old(steps)|] == old(Now());
      OthersLeave(hash, states, steps, |old(steps)|, |steps|, x);
      OthersAddNone(states, steps, |old(steps)|, |steps|, x);
      DeedsOfPrefix(old(states), old(steps), states, steps, |old(steps)|, x);
    }

    /** Connection `x` is open and stands at `v`. */
    ghost predicate Stands(x: Id, v: Session)
      requires Valid()
      reads this
    {
      x in Now().sessions && Now().sessions[x] == v
    }

    /** `finally: conn.close()` */
    ghost method CloseConnection(x: Id)
      requires Valid() && x in Now().sessions
      modifies this
      ensures Valid() && old(steps) <= steps && old(states) <= states && deeds(x) == old(deeds)(x)
      ensures x !in Now().sessions
    {
      Await(x);
      Take(x, Close(x));
    }

    // ----------------------------------------------------------------------------- statements

    /** The state a step was taken in: the one before the last. */
    ghost function Before(): State
      requires Valid() && steps != []
      reads this
    {
      states[|steps| - 1]
    }

    /** A statement that moves connection `x` and nothing else. */
    ghost method Statement(x: Id, m: Move, v: Session)
      requires Valid() && CanMove(Now(), x, m) && Moved(Now(), x, m) == v
      modifies this
      ensures Valid() && steps == old(steps) + [Act(x, m)] && old(states) <= states && deeds(x) == old(deeds)(x)
      ensures Stands(x, v) && Now().jobs == old(Now()).jobs
    {
      Take(x, Act(x, m));
    }

    /** COMMIT: the one statement that is a deed. */
    ghost method CommitNow(x: Id, v: Session)
      requires Valid() && Stands(x, v) && Committing(v)
      modifies this
      ensures Valid() && steps == old(steps) + [Commit(x)] && old(states) <= states
      ensures Before() == old(Now()) && Now() == DoCommit(old(Now()), x)
      ensures deeds(x) == old(deeds)(x) + [DeedOf(v)] && Stands(x, v.(pc := if Claims(v) then Claimed else Done))
    {
      Take(x, Commit(x));
    }

    /** `try_advisory_lock`: it succeeds exactly when the key is free at that moment, and then the key is this
        connection's; otherwise no lock changes and the call is over. */
    ghost method TryAdvisoryLock(x: Id, v: Session) returns (locked: bool, w: Session)
      requires Valid() && Stands(x, v) && v.pc.Cleared?
      modifies this
      ensures Valid() && old(steps) < steps && old(states) <= states && deeds(x) == old(deeds)(x) && Stands(x, w)
      ensures steps[|steps| - 1] == TryLock(x) && x in Before().sessions && Before().sessions[x] == v
      ensures locked <==> hash(v.job) !in Before().locks
      ensures locked ==> w == v.(pc := Locked, txn := w.txn) && Now().locks == Before().locks[hash(v.job) := x]
      ensures !locked ==> w == v.(pc := Done) && Now().locks == Before().locks
    {
      Await(x);
      locked := hash(v.job) !in Now().locks;
      Take(x, TryLock(x));
      w := Now().sessions[x];
    }

    /** `_insert_job_run`: the id was never used before, and the row is not visible yet. */
    ghost method InsertJobRun(x: Id, v: Session) returns (w: Session)
      requires Valid() && Stands(x, v) && v.pc.Locked?
      modifies this
      ensures Valid() && old(steps) < steps && old(states) <= states && deeds(x) == old(deeds)(x)
      ensures Stands(x, w) && w == v.(pc := Inserted, run := w.run)
      ensures w.run !in Before().usedRunIds && w.run !in Now().runs
    {
      Await(x);
      var run := UnusedId(Now().usedRunIds);
      w := v.(pc := Inserted, run := run);
      ValidIsRun(x);
      InvAlways(hash, states, steps, |steps|);
      Take(x, Act(x, InsertRun(run)));
    }

    /** The commit that makes the claimed row visible, running and owned. */
    ghost method CommitClaim(x: Id, v: Session)
      requires Valid() && Stands(x, v) && Claims(v)
      modifies this
      ensures Valid() && old(steps) <= steps && old(states) <= states && Stands(x, v.(pc := Claimed))
      ensures deeds(x) == old(deeds)(x) + [ClaimedRun(v.run, v.job, TickSlot(v))]
      ensures IsRunning(Now(), v.run) && Now().runs[v.run].jobId == v.job && Now().runs[v.run].trigger == v.trigger
    {
      Await(x);
      CommitNow(x, v);
    }

    /** `advisory_unlock`: the job's key is free again, while the outcome of the run is still invisible. */
    ghost method AdvisoryUnlock(x: Id, v: Session)
      requires Valid() && Stands(x, v) && v.pc.FinishPending?
      modifies this
      ensures Valid() && old(steps) < steps && old(states) <= states && deeds(x) == old(deeds)(x)
      ensures Stands(x, v.(pc := Unlocked))
      ensures hash(v.job) in Before().locks && hash(v.job) !in Now().locks && Now().runs == Before().runs
    {
      Await(x);
      ValidIsRun(x);
      InvAlways(hash, states, steps, |steps|);
      assert SessionOk(hash, Now(), x, Now().sessions[x]);
      Take(x, Unlock(x));
    }

    /** Run `run` of `job` has this outcome, and no step of any connection, nor a recovery, can change it. */
    ghost predicate Concluded(run: Id, job: Id, o: Outcome)
      requires Valid()
      reads this
    {
      && IsTerminal(Now(), run) && !Owned(Now(), run) && Now().runs[run].jobId == job
      && Now().runs[run].status == o.status && Now().runs[run].error == o.error
    }

    /** The commit that makes the outcome of the run visible. Nobody owns the row any more. */
    ghost method CommitRun(x: Id, v: Session)
      requires Valid() && Stands(x, v) && v.pc.Unlocked?
      modifies this
      ensures Valid() && old(steps) <= steps && old(states) <= states && Stands(x, v.(pc := Done))
      ensures deeds(x) == old(deeds)(x) + [ConcludedRun(v.run, v.status, v.error)]
      ensures Concluded(v.run, v.job, Outcome(v.status, v.error))
    {
      Await(x);
      ValidIsRun(x);
      InvAlways(hash, states, steps, |steps|);
      ConclusionIsFor(hash, Now(), x);
      FinalCommitDisowns(hash, Now(), Commit(x), v.run);
      CommitNow(x, v);
    }

    // ----------------------------------------------------------------------------- the part both functions share

    /** At some step since `from`, `x` asked for the lock of `job` and its key was held. */
    ghost predicate LockRefused(from: nat, x: Id, job: Id)
      reads this
    {
      exists k :: from <= k < |steps| && k < |states| && LockRefusedAt(states[k], steps[k], x, job)
    }

    ghost predicate LockRefusedAt(s: State, e: Step, x: Id, job: Id) {
      e == TryLock(x) && At(s, x, Cleared) && s.sessions[x].job == job && hash(job) in s.locks
    }

    /** The advisory lock, or the end of the call. */
    ghost method LockOrLeave(x: Id, v: Session, raises: set<Point>) returns (ended: Ended, w: Session)
      requires Valid() && Stands(x, v) && v.pc.Cleared?
      modifies this
      ensures Valid() && old(steps) <= steps && old(states) <= states && deeds(x) == old(deeds)(x)
      ensures ended.Underway? ==> Stands(x, w) && w == v.(pc := Locked, txn := w.txn)
      ensures !ended.Underway? ==> x !in Now().sessions
      ensures ended.Underway? || ended.Busy? || (ended.Raised? && EarlyRaises(raises))
      ensures ended.Busy? ==> LockRefused(|old(steps)|, x, v.job)
    {
      w := v;
      if AtLock in raises {
        CloseConnection(x);
        return Raised, w;
      }
      var locked;
      locked, w := TryAdvisoryLock(x, v);
      if locked {
        return Underway, w;
      }
      var k := |steps| - 1;
      assert LockRefusedAt(states[k], steps[k], x, v.job);
      CloseConnection(x);
      ended := Busy;
    }

    /** From the advisory lock to the committed claim: the call goes on with a running row, or it is over. */
    ghost method Claim(x: Id, v: Session, raises: set<Point>) returns (ended: Ended, w: Session)
      requires Valid() && Stands(x, v) && v.pc.Cleared? && !v.trigger.ByValidation?
      modifies this
      ensures Valid() && old(steps) <= steps && old(states) <= states
      ensures ended.Underway? ==>
                && Stands(x, w) && w == v.(pc := Claimed, txn := w.txn, run := w.run)
                && IsRunning(Now(), w.run) && Now().runs[w.run].jobId == v.job
                && deeds(x) == old(deeds)(x) + [ClaimedRun(w.run, v.job, TickSlot(v))]
      ensures !ended.Underway? ==> x !in Now().sessions && deeds(x) == old(deeds)(x)
      ensures ended.Underway? || ended.Busy? || (ended.Raised? && EarlyRaises(raises))
      ensures ended.Busy? ==> LockRefused(|old(steps)|, x, v.job)
    {
      ended, w := LockOrLeave(x, v, raises);
      if ended.Underway? {
        ended, w := WriteClaim(x, w, raises);
      }
    }

    /** The run row, the due time of a scheduled run, and the commit. */
    ghost method WriteClaim(x: Id, v: Session, raises: set<Point>) returns (ended: Ended, w: Session)
      requires Valid() && Stands(x, v) && v.pc.Locked? && !v.trigger.ByValidation?
      modifies this
      ensures Valid() && old(steps) <= steps && old(states) <= states
      ensures ended.Underway? ==>
                && Stands(x, w) && w == v.(pc := Claimed, run := w.run)
                && IsRunning(Now(), w.run) && Now().runs[w.run].jobId == v.job
                && deeds(x) == old(deeds)(x) + [ClaimedRun(w.run, v.job, TickSlot(v))]
      ensures !ended.Underway? ==>
                ended.Raised? && EarlyRaises(raises) && x !in Now().sessions && deeds(x) == old(deeds)(x)
    {
      w := v;
      if AtInsertRun in raises || (v.trigger.BySchedule? && AtUpdateSchedule in raises) || AtCommitClaim in raises {
        AbandonClaim(x, v, raises);
        return Raised, w;
      }
      w := InsertJobRun(x, v);
      if v.trigger.BySchedule? {
        Await(x);
        Statement(x, UpdateSchedule, w.(pc := ClaimPending));
        w := w.(pc := ClaimPending);
      }
      CommitClaim(x, w);
      w := w.(pc := Claimed);
      ended := Underway;
    }

    /** A statement of the claim raises, and takes what was written with it. */
    ghost method AbandonClaim(x: Id, v: Session, raises: set<Point>)
      requires Valid() && Stands(x, v) && v.pc.Locked? && !v.trigger.ByValidation?
      modifies this
      ensures Valid() && old(steps) <= steps && old(states) <= states
      ensures x !in Now().sessions && deeds(x) == old(deeds)(x)
    {
      if AtInsertRun !in raises {
        var w := InsertJobRun(x, v);
        if v.trigger.BySchedule? && AtUpdateSchedule !in raises {
          Await(x);
          Statement(x, UpdateSchedule, w.(pc := ClaimPending));
        }
      }
      CloseConnection(x);
    }

    /** `_execute_job` on a claimed run; what it does is not modelled, but it may raise itself. */
    ghost method RunBody(x: Id, v: Session, o: Outcome, raises: set<Point>) returns (ended: Ended, w: Session)
      requires Valid() && Stands(x, v) && v.pc.Claimed? && o.Valid()
      modifies this
      ensures Valid() && old(steps) <= steps && old(states) <= states && deeds(x) == old(deeds)(x)
      ensures ended.Underway? ==> Stands(x, w) && w == v.(pc := Executed, status := o.status, error := o.error)
      ensures !ended.Underway? ==> ended.Raised? && RunRaises(raises) && x !in Now().sessions
    {
      Await(x);
      Statement(x, Execute, v.(pc := Executing));
      w := v.(pc := Executed, status := o.status, error := o.error);
      if InExecution in raises {
        CloseConnection(x);
        return Raised, w;
      }
      Await(x);
      Statement(x, Finish(o.status, o.error), w);
      ended := Underway;
    }

    ghost method UpdateJobRun(x: Id, v: Session) returns (w: Session)
      requires Valid() && Stands(x, v) && v.pc.Executed?
      modifies this
      ensures Valid() && old(steps) <= steps && old(states) <= states && deeds(x) == old(deeds)(x)
      ensures Stands(x, w) && w == v.(pc := FinishPending, txn := w.txn)
    {
      Await(x);
      w := v.(pc := FinishPending, txn := Now().now);
      Statement(x, UpdateRun, w);
    }

    /** From the claim to the closed connection. When it reports an outcome, that is the row's, and nothing changes the
        row any more. */
    ghost method ExecuteJob(x: Id, v: Session, o: Outcome, raises: set<Point>) returns (ended: Ended, done: bool)
      requires Valid() && Stands(x, v) && v.pc.Claimed? && o.Valid()
      modifies this
      ensures Valid() && old(steps) <= steps && old(states) <= states && x !in Now().sessions
      ensures deeds(x)
              == if done then old(deeds)(x) + [ConcludedRun(v.run, o.status, o.error)] else old(deeds)(x)
      ensures (ended == Raised && if done then AtAuditEnd in raises else RunRaises(raises))
              || (ended == Finished(v.run, o.status) && done)
      ensures done ==> Concluded(v.run, v.job, o)
    {
      done := false;
      if AtAuditStart in raises {
        CloseConnection(x);
        return Raised, done;
      }
      var w;
      ended, w := RunBody(x, v, o, raises);
      if ended.Underway? {
        ended, done := Conclude(x, w, raises);
      }
    }

    /** From the end of the job's body: the row is updated, the lock given up, the outcome committed. */
    ghost method Conclude(x: Id, v: Session, raises: set<Point>) returns (ended: Ended, done: bool)
      requires Valid() && Stands(x, v) && v.pc.Executed? && !v.status.Running?
      modifies this
      ensures Valid() && old(steps) <= steps && old(states) <= states && x !in Now().sessions
      ensures deeds(x)
              == if done then old(deeds)(x) + [ConcludedRun(v.run, v.status, v.error)] else old(deeds)(x)
      ensures (ended == Raised && if done then AtAuditEnd in raises else RunRaises(raises))
              || (ended == Finished(v.run, v.status) && done)
      ensures done ==> Concluded(v.run, v.job, Outcome(v.status, v.error))
    {
      done := false;
      if AtUpdateRun in raises {
        CloseConnection(x);
        return Raised, done;
      }
      var w := UpdateJobRun(x, v);
      if AtUnlock in raises {
        CloseConnection(x);
        return Raised, done;
      }
      AdvisoryUnlock(x, w);
      if AtCommitRun in raises {
        CloseConnection(x);
        return Raised, done;
      }
      CommitRun(x, w.(pc := Unlocked));
      CloseConcluded(x, v.run, v.job, Outcome(v.status, v.error));
      ended, done := if AtAuditEnd in raises then Raised else Finished(v.run, v.status), true;
    }

    ghost method CloseConcluded(x: Id, run: Id, job: Id, o: Outcome)
      requires Valid() && x in Now().sessions && Concluded(run, job, o)
      modifies this
      ensures Valid() && old(steps) <= steps && old(states) <= states && deeds(x) == old(deeds)(x)
      ensures x !in Now().sessions && Concluded(run, job, o)
    {
      var n := |steps|;
      CloseConnection(x);
      assert states[n] == old(Now());
      ValidIsRun(x);
      UnownedRowsAreFrozen(hash, states, steps, n, |steps|, run);
    }

    /** Whatever a call says it has done since a history, one of its commits after that history did, with what the deed
        means as its effect. */
    lemma DoneSince(before: seq<State>, taken: seq<Step>, x: Id, did: seq<Deed>, j: nat) returns (k: nat)
      requires Valid() && |before| == |taken| + 1 && before <= states && taken <= steps
      requires deeds(x) == Deeds(before, taken, |taken|, x) + did && j < |did|
      ensures |taken| <= k < |steps| && steps[k] == Commit(x) && Means(states[k], states[k + 1], did[j])
    {
      ValidIsRun(x);
      DeedsOfPrefix(before, taken, states, steps, |taken|, x);
      k := DeedsAreSound(hash, states, steps, |taken|, |steps|, x, |Deeds(before, taken, |taken|, x)| + j);
    }

    /** A run that `x` claims after a history is in no state of that history. */
    lemma ClaimsAreNew(before: seq<State>, taken: seq<Step>, x: Id, did: seq<Deed>)
      requires Valid() && |before| == |taken| + 1 && before <= states && taken <= steps
      requires deeds(x) == Deeds(before, taken, |taken|, x) + did && did != [] && did[0].ClaimedRun?
      ensures did[0].run !in before[|taken|].runs
    {
      ValidIsRun(x);
      DeedsOfPrefix(before, taken, states, steps, |taken|, x);
      ClaimIsNew(hash, states, steps, |taken|, |steps|, x, |Deeds(before, taken, |taken|, x)|);
    }

    /** What follows the licence check in both functions. */
    ghost method ClaimAndExecute(x: Id, v: Session, o: Outcome, raises: set<Point>)
      returns (ended: Ended, run: Id, did: seq<Deed>)
      requires Valid() && Stands(x, v) && v.pc.Cleared? && !v.trigger.ByValidation? && o.Valid()
      modifies this
      ensures Valid() && old(steps) <= steps && old(states) <= states && x !in Now().sessions
      ensures deeds(x) == old(deeds)(x) + did && Ran(ended, did, ClaimedRun(run, v.job, TickSlot(v)), o)
      ensures ended.Raised? ==> RaiseFits(did, raises)
      ensures ended.Busy? ==> LockRefused(|old(steps)|, x, v.job)
      ensures ended.Finished? ==> Concluded(run, v.job, o)
    {
      run, did := 0, [];
      var w;
      ended, w := Claim(x, v, raises);
      if ended.Underway? {
        run, did := w.run, [ClaimedRun(w.run, v.job, TickSlot(v))];
        var done;
        ended, done := ExecuteJob(x, w, o, raises);
        did := if done then did + [ConcludedRun(run, o.status, o.error)] else did;
      }
    }

    // ----------------------------------------------------------------------------- run-now

    /** `run_job_once` for a job that exists. A licence refusal, or a licence check that raises, ends it before it
        connects. It raises only where a statement does; it is refused exactly when the licence says so; it is busy
        only when the job's key was held; and when it finishes, it has claimed one new run of the job, and committed
        the outcome, which stands. */
    ghost method RunJobOnce(x: Id, job: Id, allowed: bool, o: Outcome, raises: set<Point>)
      returns (ended: Ended, run: Id, did: seq<Deed>)
      requires Valid() && x !in Now().sessions && job in Now().jobs && o.Valid()
      modifies this
      ensures Valid() && old(steps) <= steps && old(states) <= states && x !in Now().sessions
      ensures deeds(x) == old(deeds)(x) + did
      ensures if ended.Refused? then did == [] else Ran(ended, did, ClaimedRun(run, job, None), o)
      ensures ended.Raised? ==>
                || RaiseFits(did, raises)
                || (did == [] && Guarded(old(Now()).jobs[job].jobType) && !allowed && AtAuditEnd in raises)
      ensures !ended.Raised? ==> (ended.Refused? <==> Guarded(old(Now()).jobs[job].jobType) && !allowed)
      ensures ended.Refused? ==> steps == old(steps)
      ensures ended.Busy? ==> LockRefused(|old(steps)|, x, job)
      ensures did != [] ==> run !in old(Now()).runs
      ensures ended.Finished? ==> Concluded(run, job, o)
    {
      run, did := 0, [];
      if Gated(Now().jobs[job].jobType) {
        if AtLicense in raises || (!allowed && AtAuditEnd in raises) {
          return Raised, run, did;
        }
        if !allowed {
          return Refused, run, did;
        }
      }
      if AtConnect in raises {
        return Raised, run, did;
      }
      assert Recorded(x);
      var v := FreshSession(ByRunNow, Cleared, job, Now().now);
      Statement(x, OpenRunNow(job), v);
      ended, run, did := ClaimAndExecute(x, v, o, raises);
      if did != [] {
        ClaimsAreNew(old(states), old(steps), x, did);
      }
    }

    // ----------------------------------------------------------------------------- one tick

    /** At some state since `from`, `x` was about to disable schedule `i`, and its row was locked or gone. */
    ghost predicate CouldNotDisable(from: nat, x: Id, i: Id)
      reads this
    {
      exists k :: from <= k < |states| && CouldNotDisableAt(states[k], x, i)
    }

    /** Why a tick that began at `from` ended as it did: nothing was due, the key was held, the schedule could not be
        disabled, or a statement raised. */
    ghost predicate Explained(ended: Ended, did: seq<Deed>, from: nat, x: Id, raises: set<Point>)
      reads this
    {
      && (ended.NothingDue? ==> |steps| < |states| && SawNothingDue(states, steps, from, x))
      && (ended.Busy? ==> exists job :: LockRefused(from, x, job))
      && (ended.Disabled? && did == [] ==> DisableRaises(raises) || exists i :: CouldNotDisable(from, x, i))
      && (ended.Raised? ==> RaiseFits(did, raises))
    }

    /** The job refreshes views or is of a type unknown, so the licence does not guard it. */
    ghost predicate Ungated(job: Id)
      requires Valid()
      reads this
    {
      job in Now().jobs && !Guarded(Now().jobs[job].jobType)
    }

    /** A slot is skipped only if the licence guards its job and refuses, and claimed only if not. */
    ghost predicate Licensed(deed: Deed, a: Answers)
      requires Valid()
      reads this
    {
      && (deed.SkippedSlot? ==> !a.allowed && deed.job in Now().jobs && Guarded(Now().jobs[deed.job].jobType))
      && (deed.ClaimedRun? ==> a.allowed || Ungated(deed.job))
    }

    /** The schedule a deed is about is the one its query had to take: for a slot, the earliest that was due and free.
        */
    ghost predicate Picked(deed: Deed, from: nat, x: Id)
      requires Valid()
      reads this
    {
      match deed
      case ClaimedRun(_, job, Some(slot)) => TookDue(states, steps, from, x, slot.schedule, job)
      case SkippedSlot(slot, job) => TookDue(states, steps, from, x, slot.schedule, job)
      case GaveDueTime(i, _) => exists job :: TookNew(states, steps, from, x, i, job)
      case DisabledSchedule(i, job, _, _) => Took(states, steps, from, x, i, job)
      case _ => true
    }

    /** What the end of a tick that began at `from` says about what it has done. */
    ghost predicate Told(ended: Ended, did: seq<Deed>, from: nat, x: Id, a: Answers)
      requires Valid()
      reads this
    {
      && TickDid(ended, did, a.reason, a.outcome) && Explained(ended, did, from, x, a.raises)
      && (did != [] ==> Computed(did[0], a.next) && Licensed(did[0], a) && Picked(did[0], from, x))
      && (ended.Disabled? ==> a.Unparsable())
      && (ended.Finished? ==> Concluded(did[0].run, did[0].job, a.outcome))
    }

    /** `_disable_invalid_schedule`, after the rollback. Once it has connected, whatever raises in it is swallowed; so
        is a wait for the row that does not end. With nothing raised and the row there and free, the schedule is
        disabled and a failed run says why. */
    ghost method DisableInvalidSchedule(x: Id, v: Session, reason: Reason, raises: set<Point>)
      returns (ended: Ended, did: seq<Deed>)
      requires Valid() && Stands(x, v) && v.pc.DisableOpened?
      modifies this
      ensures Valid() && old(steps) <= steps && old(states) <= states && x !in Now().sessions
      ensures deeds(x) == old(deeds)(x) + did
      ensures did == [] || (Disables(did, reason) && did[0].schedule == v.schedule && did[0].job == v.job)
      ensures ended == if AtDisableConnect in raises then Raised else Disabled
      ensures did != [] ==> ended.Disabled? && !DisableRaises(raises)
      ensures ended.Disabled? && did == [] ==>
                DisableRaises(raises) || CouldNotDisable(|old(steps)|, x, v.schedule)
    {
      did := [];
      if AtDisableConnect in raises {
        CloseConnection(x);
        return Raised, did;
      }
      ended := Disabled;
      Await(x);
      if RowHeld(Now(), v.schedule) || v.schedule !in Now().schedules {
        var k := |steps|;
        assert CouldNotDisableAt(states[k], x, v.schedule);
        CloseConnection(x);
      } else if AtDisable in raises {
        CloseConnection(x);
      } else {
        var w := v.(pc := DisableUpdated, txn := Now().now);
        Statement(x, DisableUpdate, w);
        did := RecordDisabling(x, w, reason, raises);
      }
    }

    /** The failed run row that says why, and the commit. */
    ghost method RecordDisabling(x: Id, v: Session, reason: Reason, raises: set<Point>) returns (did: seq<Deed>)
      requires Valid() && Stands(x, v) && v.pc.DisableUpdated?
      modifies this
      ensures Valid() && old(steps) <= steps && old(states) <= states && x !in Now().sessions
      ensures deeds(x) == old(deeds)(x) + did
      ensures did == [] || (Disables(did, reason) && did[0].schedule == v.schedule && did[0].job == v.job)
      ensures did == [] <==> AtDisableInsert in raises || AtDisableCommit in raises
    {
      did := [];
      if AtDisableInsert !in raises {
        var w := RecordReason(x, v, reason);
        if AtDisableCommit !in raises {
          did := CommitDisabling(x, w);
        }
      }
      CloseConnection(x);
    }

    ghost method RecordReason(x: Id, v: Session, reason: Reason) returns (w: Session)
      requires Valid() && Stands(x, v) && v.pc.DisableUpdated?
      modifies this
      ensures Valid() && old(steps) <= steps && old(states) <= states && deeds(x) == old(deeds)(x)
      ensures Stands(x, w) && w == v.(pc := DisableInserted, run := w.run, error := Some(reason))
    {
      Await(x);
      var run := UnusedId(Now().usedRunIds);
      w := v.(pc := DisableInserted, run := run, error := Some(reason));
      Statement(x, DisableInsert(run, reason), w);
    }

    /** At this commit the schedule is disabled and has no due time, and the failed row appears. */
    ghost method CommitDisabling(x: Id, v: Session) returns (did: seq<Deed>)
      requires Valid() && Stands(x, v) && v.pc.DisableInserted?
      modifies this
      ensures Valid() && old(steps) <= steps && old(states) <= states && x in Now().sessions
      ensures did == [DisabledSchedule(v.schedule, v.job, v.run, v.error)] && deeds(x) == old(deeds)(x) + did
      ensures v.schedule in Now().schedules && !Now().schedules[v.schedule].enabled
      ensures Now().schedules[v.schedule].nextRunAt.None?
      ensures IsTerminal(Now(), v.run) && Now().runs[v.run].jobId == v.job && Now().runs[v.run].error == v.error
    {
      Await(x);
      ValidIsRun(x);
      InvAlways(hash, states, steps, |steps|);
      OtherCommitMeans(hash, Now(), x);
      CommitNow(x, v);
      did := [DeedOf(v)];
    }

    /** The next due time of the picked schedule. */
    ghost method ComputeNextRun(x: Id, v: Session, a: Answers) returns (w: Session)
      requires Valid() && Stands(x, v) && (v.pc.NewPicked? || v.pc.DuePicked?) && a.Valid()
      modifies this
      ensures Valid() && old(steps) <= steps && old(states) <= states && deeds(x) == old(deeds)(x) && Stands(x, w)
      ensures w == v.(pc := w.pc, next := w.next, base := w.base)
      ensures w.pc.DisableOpened? || (w.pc == (if v.pc.NewPicked? then NewReady else DueReady))
      ensures if w.pc.DisableOpened? then a.Unparsable() else a.next(w.base) == Some(w.next)
    {
      Await(x);
      var outcome := a.next(Now().now);
      w := Moved(Now(), x, Compute(outcome));
      Statement(x, Compute(outcome), w);
    }

    /** A schedule without a due time is picked, the one with the least id. */
    ghost method TakeNew(x: Id, v: Session, from: nat) returns (w: Session)
      requires Valid() && Stands(x, v) && v.pc.Opened? && (exists i :: NewCandidate(Now(), i)) && from <= |steps|
      modifies this
      ensures Valid() && old(steps) <= steps && old(states) <= states && deeds(x) == old(deeds)(x) && Stands(x, w)
      ensures w.pc.NewPicked? && TookNew(states, steps, from, x, w.schedule, w.job)
    {
      var s, k := Now(), |steps|;
      var c :| NewCandidate(s, c);
      var i := FirstNew(s, c);
      w := v.(pc := NewPicked, schedule := i, job := s.schedules[i].jobId, txn := s.now);
      NewQuery(s, x);
      assert CanMove(s, x, PickNew(i));
      Statement(x, PickNew(i), w);
      assert states[k] == s && TookNewAt(states[k], steps[k], x, i, w.job);
    }

    ghost method PickNewSchedule(x: Id, v: Session, a: Answers, from: nat) returns (w: Session)
      requires Valid() && Stands(x, v) && v.pc.Opened? && (exists i :: NewCandidate(Now(), i)) && a.Valid()
      requires from <= |steps|
      modifies this
      ensures Valid() && old(steps) <= steps && old(states) <= states && deeds(x) == old(deeds)(x) && Stands(x, w)
      ensures TookNew(states, steps, from, x, w.schedule, w.job)
      ensures (w.pc.DisableOpened? && a.Unparsable()) || (w.pc.NewReady? && a.next(w.base) == Some(w.next))
    {
      w := TakeNew(x, v, from);
      var before, taken := states, steps;
      w := ComputeNextRun(x, w, a);
      TookStays(before, taken, states, steps, from, x, w.schedule, w.job);
    }

    ghost method InitialiseSchedule(x: Id, v: Session, raises: set<Point>) returns (ended: Ended, did: seq<Deed>)
      requires Valid() && Stands(x, v) && v.pc.NewReady?
      modifies this
      ensures Valid() && old(steps) <= steps && old(states) <= states && x !in Now().sessions
      ensures deeds(x) == old(deeds)(x) + did
      ensures (ended.Initialised? && did == [GaveDueTime(v.schedule, v.next)])
              || (ended.Raised? && did == [] && EarlyRaises(raises))
    {
      ended, did := Raised, [];
      if AtUpdateSchedule !in raises {
        Await(x);
        Statement(x, UpdateNew, v.(pc := NewPending));
        if AtCommitSchedule !in raises {
          Await(x);
          CommitNow(x, v.(pc := NewPending));
          ended, did := Initialised, [GaveDueTime(v.schedule, v.next)];
        }
      }
      CloseConnection(x);
    }

    /** The first half of a tick: a schedule without a due time is given one, or disabled. */
    ghost method RunNewSchedule(x: Id, v: Session, a: Answers, from: nat) returns (ended: Ended, did: seq<Deed>)
      requires Valid() && Stands(x, v) && v.pc.Opened? && (exists i :: NewCandidate(Now(), i)) && a.Valid()
      requires from <= |steps|
      modifies this
      ensures Valid() && old(steps) <= steps && old(states) <= states && x !in Now().sessions
      ensures deeds(x) == old(deeds)(x) + did && Told(ended, did, from, x, a)
    {
      var w := PickNewSchedule(x, v, a, from);
      if w.pc.DisableOpened? {
        ended, did := DisableAndTell(x, w, a, from);
      } else {
        var before, taken := states, steps;
        ended, did := InitialiseSchedule(x, w, a.raises);
        TookStays(before, taken, states, steps, from, x, w.schedule, w.job);
        assert did != [] ==> Computed(did[0], a.next);
      }
    }

    ghost method DisableAndTell(x: Id, v: Session, a: Answers, from: nat) returns (ended: Ended, did: seq<Deed>)
      requires Valid() && Stands(x, v) && v.pc.DisableOpened? && from <= |steps| && a.Unparsable()
      requires Took(states, steps, from, x, v.schedule, v.job)
      modifies this
      ensures Valid() && old(steps) <= steps && old(states) <= states && x !in Now().sessions
      ensures deeds(x) == old(deeds)(x) + did && Told(ended, did, from, x, a)
    {
      ended, did := DisableInvalidSchedule(x, v, a.reason, a.raises);
      assert CouldNotDisable(|old(steps)|, x, v.schedule) ==> CouldNotDisable(from, x, v.schedule);
      TookStays(old(states), old(steps), states, steps, from, x, v.schedule, v.job);
    }

    /** A due schedule is picked, the earliest of those that are free. Step `j` found no new one. */
    ghost method TakeDue(x: Id, v: Session, from: nat, j: nat) returns (w: Session)
      requires Valid() && Stands(x, v) && v.pc.NothingNew? && v.trigger.BySchedule?
      requires exists i :: DueCandidate(Now(), v.txn, i)
      requires from <= j < |steps| && NothingNewAt(states[j], steps[j], x) && v.txn == states[j].now
      modifies this
      ensures Valid() && old(steps) <= steps && old(states) <= states && deeds(x) == old(deeds)(x) && Stands(x, w)
      ensures w.trigger.BySchedule? && w.pc.DuePicked? && TookDue(states, steps, from, x, w.schedule, w.job)
    {
      var s, n := Now(), |steps|;
      var k :| DueCandidate(s, v.txn, k);
      var i := FirstDue(s, v.txn, k);
      w := v.(pc := DuePicked, schedule := i, job := s.schedules[i].jobId, slot := s.schedules[i].nextRunAt.value);
      DueQuery(s, x);
      assert CanMove(s, x, PickDue(i));
      Statement(x, PickDue(i), w);
      assert states[n] == s && TookDueAt(states[n], steps[n], x, states[j].now, i, w.job);
    }

    ghost method PickDueSchedule(x: Id, v: Session, a: Answers, from: nat, j: nat) returns (w: Session)
      requires Valid() && Stands(x, v) && v.pc.NothingNew? && v.trigger.BySchedule?
      requires (exists i :: DueCandidate(Now(), v.txn, i)) && a.Valid()
      requires from <= j < |steps| && NothingNewAt(states[j], steps[j], x) && v.txn == states[j].now
      modifies this
      ensures Valid() && old(steps) <= steps && old(states) <= states && deeds(x) == old(deeds)(x) && Stands(x, w)
      ensures w.trigger.BySchedule? && TookDue(states, steps, from, x, w.schedule, w.job)
      ensures (w.pc.DisableOpened? && a.Unparsable()) || (w.pc.DueReady? && a.next(w.base) == Some(w.next))
    {
      w := TakeDue(x, v, from, j);
      var before, taken := states, steps;
      w := ComputeNextRun(x, w, a);
      TookStays(before, taken, states, steps, from, x, w.schedule, w.job);
    }

    /** The licence check of a due job: a refusal advances the schedule and ends the tick. */
    ghost method CheckLicense(x: Id, v: Session, allowed: bool, raises: set<Point>)
      returns (ended: Ended, w: Session, did: seq<Deed>)
      requires Valid() && Stands(x, v) && v.pc.DueReady? && v.trigger.BySchedule?
      modifies this
      ensures Valid() && old(steps) <= steps && old(states) <= states && deeds(x) == old(deeds)(x) + did
      ensures ended.Underway? ==>
                Stands(x, w) && w == v.(pc := Cleared) && (allowed || Ungated(v.job)) && deeds(x) == old(deeds)(x)
      ensures !ended.Underway? ==> x !in Now().sessions && Skips(ended, did, v, raises)
      ensures !ended.Underway? && did != [] ==>
                !allowed && v.job in Now().jobs && Guarded(Now().jobs[v.job].jobType)
    {
      Await(x);
      w, did := v.(pc := Cleared), [];
      if AtLicense in raises {
        CloseConnection(x);
        return Raised, w, did;
      }
      JobIsThere(x);
      if allowed || !Gated(Now().jobs[v.job].jobType) {
        Statement(x, License(true), w);
        return Underway, w, did;
      }
      var n := |steps|;
      assert states[n] == Now();
      ended, did := SkipUnlicensed(x, v, raises);
      TypeStays(x, n, v.job);
    }

    lemma TypeStays(x: Id, n: nat, job: Id)
      requires Valid() && n <= |steps| && job in states[n].jobs
      ensures job in Now().jobs && Now().jobs[job].jobType == states[n].jobs[job].jobType
    {
      ValidIsRun(x);
      JobTypesStay(hash, states, steps, n, |steps|, job);
    }

    /** A tick that has picked a due schedule holds the row of its job. */
    lemma JobIsThere(x: Id)
      requires Valid() && x in Now().sessions && HoldsJobRow(Now().sessions[x])
      ensures Now().sessions[x].job in Now().jobs
    {
      ValidIsRun(x);
      InvAlways(hash, states, steps, |steps|);
      assert SessionOk(hash, Now(), x, Now().sessions[x]);
    }

    ghost method SkipUnlicensed(x: Id, v: Session, raises: set<Point>) returns (ended: Ended, did: seq<Deed>)
      requires Valid() && Stands(x, v) && CanMove(Now(), x, License(false))
      modifies this
      ensures Valid() && old(steps) <= steps && old(states) <= states && x !in Now().sessions
      ensures deeds(x) == old(deeds)(x) + did && Skips(ended, did, v, raises)
    {
      ended, did := Raised, [];
      if AtUpdateSchedule !in raises {
        Statement(x, License(false), v.(pc := SkipPending));
        if AtCommitSchedule !in raises {
          Await(x);
          CommitNow(x, v.(pc := SkipPending));
          ended, did := if AtAuditEnd in raises then Raised else Skipped, [SkippedSlot(SlotOf(v), v.job)];
        }
      }
      CloseConnection(x);
    }

    ghost method LeaveNothingDue(x: Id, v: Session, from: nat, j: nat) returns (ended: Ended)
      requires Valid() && Stands(x, v) && v.pc.NothingNew? && forall i :: !DueCandidate(Now(), v.txn, i)
      requires from <= j < |steps| && NothingNewAt(states[j], steps[j], x) && v.txn == states[j].now
      modifies this
      ensures Valid() && old(steps) <= steps && old(states) <= states && x !in Now().sessions
      ensures deeds(x) == old(deeds)(x) && ended.NothingDue? && SawNothingDue(states, steps, from, x)
    {
      var s, k := Now(), |steps|;
      DueQuery(s, x);
      NothingIsFree(s, x, v.txn);
      Statement(x, NoDue, v.(pc := Done));
      assert states[k] == s && NothingDueAt(states[k], steps[k], x, states[j].now);
      CloseConnection(x);
      ended := NothingDue;
    }

    /** A due job that the licence allows, or does not guard. */
    ghost method RunAllowed(x: Id, v: Session, a: Answers, from: nat) returns (ended: Ended, did: seq<Deed>)
      requires Valid() && Stands(x, v) && v.pc.Cleared? && v.trigger.BySchedule? && a.Valid() && from <= |steps|
      requires a.next(v.base) == Some(v.next) && (a.allowed || Ungated(v.job))
      requires TookDue(states, steps, from, x, v.schedule, v.job)
      modifies this
      ensures Valid() && old(steps) <= steps && old(states) <= states && x !in Now().sessions
      ensures deeds(x) == old(deeds)(x) + did && Told(ended, did, from, x, a)
    {
      var n, run := |steps|, 0;
      assert states[n] == Now();
      ended, run, did := ClaimAndExecute(x, v, a.outcome, a.raises);
      if !a.allowed {
        TypeStays(x, n, v.job);
      }
      TookStays(old(states), old(steps), states, steps, from, x, v.schedule, v.job);
      RanTells(ended, did, run, v, from, x, a);
    }

    lemma RanTells(ended: Ended, did: seq<Deed>, run: Id, v: Session, from: nat, x: Id, a: Answers)
      requires Valid() && v.trigger.BySchedule? && a.next(v.base) == Some(v.next) && (a.allowed || Ungated(v.job))
      requires Ran(ended, did, ClaimedRun(run, v.job, TickSlot(v)), a.outcome)
      requires ended.Raised? ==> RaiseFits(did, a.raises)
      requires ended.Busy? ==> LockRefused(from, x, v.job)
      requires ended.Finished? ==> Concluded(run, v.job, a.outcome)
      requires TookDue(states, steps, from, x, v.schedule, v.job)
      ensures Told(ended, did, from, x, a)
    {
      if did != [] {
        var deed := ClaimedRun(run, v.job, Some(SlotOf(v)));
        assert did[0] == deed && Computed(deed, a.next) && Licensed(deed, a) && Picked(deed, from, x);
      }
    }

    /** A due job: the licence check, and what follows it. */
    ghost method RunDueJob(x: Id, v: Session, a: Answers, from: nat) returns (ended: Ended, did: seq<Deed>)
      requires Valid() && Stands(x, v) && v.pc.DueReady? && v.trigger.BySchedule? && a.Valid() && from <= |steps|
      requires a.next(v.base) == Some(v.next) && TookDue(states, steps, from, x, v.schedule, v.job)
      modifies this
      ensures Valid() && old(steps) <= steps && old(states) <= states && x !in Now().sessions
      ensures deeds(x) == old(deeds)(x) + did && Told(ended, did, from, x, a)
    {
      var w;
      ended, w, did := CheckLicense(x, v, a.allowed, a.raises);
      TookStays(old(states), old(steps), states, steps, from, x, v.schedule, v.job);
      if ended.Underway? {
        ended, did := RunAllowed(x, w, a, from);
      } else {
        SkipTells(ended, did, v, from, x, a);
      }
    }

    lemma SkipTells(ended: Ended, did: seq<Deed>, v: Session, from: nat, x: Id, a: Answers)
      requires Valid() && a.next(v.base) == Some(v.next) && Skips(ended, did, v, a.raises)
      requires did != [] ==> !a.allowed && v.job in Now().jobs && Guarded(Now().jobs[v.job].jobType)
      requires TookDue(states, steps, from, x, v.schedule, v.job)
      ensures Told(ended, did, from, x, a)
    {
      var deed := SkippedSlot(SlotOf(v), v.job);
      assert Computed(deed, a.next) && (did != [] ==> Licensed(deed, a)) && Picked(deed, from, x);
    }

    /** The second half of a tick, when step `j` found no schedule without a due time. */
    ghost method RunNextDue(x: Id, v: Session, a: Answers, from: nat, j: nat) returns (ended: Ended, did: seq<Deed>)
      requires Valid() && Stands(x, v) && v.pc.NothingNew? && v.trigger.BySchedule? && a.Valid()
      requires from <= j < |steps| && NothingNewAt(states[j], steps[j], x) && v.txn == states[j].now
      modifies this
      ensures Valid() && old(steps) <= steps && old(states) <= states && x !in Now().sessions
      ensures deeds(x) == old(deeds)(x) + did && Told(ended, did, from, x, a)
    {
      did := [];
      if AtSelectDue in a.raises {
        CloseConnection(x);
        return Raised, did;
      }
      Await(x);
      if !exists i :: DueCandidate(Now(), v.txn, i) {
        ended := LeaveNothingDue(x, v, from, j);
        return;
      }
      ended, did := RunFirstDue(x, v, a, from, j);
    }

    ghost method RunFirstDue(x: Id, v: Session, a: Answers, from: nat, j: nat) returns (ended: Ended, did: seq<Deed>)
      requires Valid() && Stands(x, v) && v.pc.NothingNew? && v.trigger.BySchedule? && a.Valid()
      requires exists i :: DueCandidate(Now(), v.txn, i)
      requires from <= j < |steps| && NothingNewAt(states[j], steps[j], x) && v.txn == states[j].now
      modifies this
      ensures Valid() && old(steps) <= steps && old(states) <= states && x !in Now().sessions
      ensures deeds(x) == old(deeds)(x) + did && Told(ended, did, from, x, a)
    {
      var w := PickDueSchedule(x, v, a, from, j);
      if w.pc.DisableOpened? {
        ended, did := DisableAndTell(x, w, a, from);
      } else {
        ended, did := RunDueJob(x, w, a, from);
      }
    }

    /** The first query finds nothing. */
    ghost method FindNothingNew(x: Id, v: Session) returns (w: Session, j: nat)
      requires Valid() && Stands(x, v) && v.pc.Opened? && forall i :: !NewCandidate(Now(), i)
      modifies this
      ensures Valid() && old(steps) <= steps && old(states) <= states && deeds(x) == old(deeds)(x) && Stands(x, w)
      ensures w == v.(pc := NothingNew, txn := w.txn)
      ensures |old(steps)| <= j < |steps| && NothingNewAt(states[j], steps[j], x) && w.txn == states[j].now
    {
      var s := Now();
      j := |steps|;
      NewQuery(s, x);
      NothingNewIsFree(s, x);
      w := v.(pc := NothingNew, txn := s.now);
      Statement(x, NoNew, w);
      assert states[j] == s;
    }

    /** The tick from its connection on. */
    ghost method RunOpened(x: Id, v: Session, a: Answers, from: nat) returns (ended: Ended, did: seq<Deed>)
      requires Valid() && Stands(x, v) && v.pc.Opened? && v.trigger.BySchedule? && a.Valid() && from <= |steps|
      modifies this
      ensures Valid() && old(steps) <= steps && old(states) <= states && x !in Now().sessions
      ensures deeds(x) == old(deeds)(x) + did && Told(ended, did, from, x, a)
    {
      did := [];
      if AtSelectNew in a.raises {
        CloseConnection(x);
        return Raised, did;
      }
      Await(x);
      if exists i :: NewCandidate(Now(), i) {
        ended, did := RunNewSchedule(x, v, a, from);
        return;
      }
      var w, j := FindNothingNew(x, v);
      ended, did := RunNextDue(x, w, a, from, j);
    }

    /** `_run_due_schedule`: however it ends, it is a stretch of a run, and its connection is closed. What it has done
        is at most one of: a due time given to a new schedule, a schedule disabled, a slot skipped for the licence, a
        slot claimed for a new run; and nothing only for a reason. A gated job is claimed only if the licence allows
        it. When it finishes, the run it claimed has the outcome for good. */
    ghost method RunDueSchedule(x: Id, a: Answers) returns (ended: Ended, did: seq<Deed>)
      requires Valid() && x !in Now().sessions && a.Valid()
      modifies this
      ensures Valid() && old(steps) <= steps && old(states) <= states && x !in Now().sessions
      ensures deeds(x) == old(deeds)(x) + did && Told(ended, did, |old(steps)|, x, a)
      ensures did != [] && did[0].ClaimedRun? ==> did[0].run !in old(Now()).runs
    {
      did := [];
      if AtConnect in a.raises {
        return Raised, did;
      }
      assert Recorded(x);
      var from := |steps|;
      var v := FreshSession(BySchedule, Opened, 0, Now().now);
      Statement(x, Open, v);
      ended, did := RunOpened(x, v, a, from);
      if did != [] && did[0].ClaimedRun? {
        ClaimsAreNew(old(states), old(steps), x, did);
      }
    }

    /** A tick with work to do does it: if at each of its steps some schedule is due and free, and none is without a due
        time, and nothing raises, it ends with a finished run, a slot skipped for the licence, a schedule disabled for
        its cron expression, or the job's key held. */
    lemma Progress(ended: Ended, did: seq<Deed>, from: nat, x: Id, a: Answers)
      requires Valid() && from <= |steps| && Told(ended, did, from, x, a) && a.raises == {}
      requires forall k, i :: from <= k < |steps| ==> !New(states[k], i)
      requires forall k :: from <= k < |steps| ==> SomeDueAndFree(states[k], states[from].now, x)
      ensures ended.Finished? || (ended.Skipped? && !a.allowed) || (ended.Disabled? && a.Unparsable()) || ended.Busy?
    {
      ValidIsRun(x);
      if SawNothingDue(states, steps, from, x) {
        NothingWasDue(hash, states, steps, from, x);
      }
      NothingNewTaken(states, steps, from, x);
    }
  }

  lemma NothingNewTaken(states: seq<State>, steps: seq<Step>, from: nat, x: Id)
    requires |steps| < |states| && forall k, i :: from <= k < |steps| ==> !New(states[k], i)
    ensures forall i, job :: !TookNew(states, steps, from, x, i, job)
  {
    forall i, job ensures !TookNew(states, steps, from, x, i, job) {
      forall k | from <= k < |steps| ensures !TookNewAt(states[k], steps[k], x, i, job) {
        assert !New(states[k], i);
      }
    }
  }

  lemma NothingWasDue(hash: Hash, states: seq<State>, steps: seq<Step>, from: nat, x: Id)
    requires IsRun(hash, states, steps) && SawNothingDue(states, steps, from, x)
    ensures exists k :: from <= k < |steps| && !SomeDueAndFree(states[k], states[from].now, x)
  {
    var j, k :| from <= j < k < |steps| && NothingNewAt(states[j], steps[j], x)
                && NothingDueAt(states[k], steps[k], x, states[j].now);
    NowRises(hash, states, steps, from, j);
    forall i ensures !DueAndFree(states[k], states[from].now, x, i) {
      assert DueBy(states[k], states[from].now, i) ==> DueBy(states[k], states[j].now, i);
    }
    assert !SomeDueAndFree(states[k], states[from].now, x);
  }

  ghost predicate SomeDueAndFree(s: State, until: Time, x: Id) {
    exists i :: DueAndFree(s, until, x, i)
  }

  // ------------------------------------------------------------------------------- what the queries saw

  /** `x` looked for schedules without a due time: others had locked all of them. */
  ghost predicate NothingNewAt(s: State, e: Step, x: Id) {
    e == Act(x, NoNew) && forall i :: New(s, i) ==> LockedByOther(s, x, i)
  }

  /** `x` looked for schedules due by `until`: others had locked the row of each, or of its job. */
  ghost predicate NothingDueAt(s: State, e: Step, x: Id, until: Time) {
    && e == Act(x, NoDue)
    && forall i :: DueBy(s, until, i) ==> LockedByOther(s, x, i) || JobLockedByOther(s, x, s.schedules[i].jobId)
  }

  ghost predicate TookNewAt(s: State, e: Step, x: Id, i: Id, job: Id) {
    e == Act(x, PickNew(i)) && IsFirstNew(s, x, i) && s.schedules[i].jobId == job
  }

  ghost predicate TookDueAt(s: State, e: Step, x: Id, until: Time, i: Id, job: Id) {
    e == Act(x, PickDue(i)) && IsEarliestDue(s, until, x, i) && s.schedules[i].jobId == job
  }

  /** Since step `from`, `x` found nothing new, and then nothing due by that time. */
  ghost predicate SawNothingDue(states: seq<State>, steps: seq<Step>, from: nat, x: Id)
    requires |steps| < |states|
  {
    exists j, k :: from <= j < k < |steps| && NothingNewAt(states[j], steps[j], x)
                   && NothingDueAt(states[k], steps[k], x, states[j].now)
  }

  /** Since step `from`, `x` took the new schedule `i`. */
  ghost predicate TookNew(states: seq<State>, steps: seq<Step>, from: nat, x: Id, i: Id, job: Id)
    requires |steps| < |states|
  {
    exists k :: from <= k < |steps| && TookNewAt(states[k], steps[k], x, i, job)
  }

  /** Since step `from`, `x` found nothing new, and then took schedule `i` of those due by that time. */
  ghost predicate TookDue(states: seq<State>, steps: seq<Step>, from: nat, x: Id, i: Id, job: Id)
    requires |steps| < |states|
  {
    exists j, k :: from <= j < k < |steps| && NothingNewAt(states[j], steps[j], x)
                   && TookDueAt(states[k], steps[k], x, states[j].now, i, job)
  }

  ghost predicate Took(states: seq<State>, steps: seq<Step>, from: nat, x: Id, i: Id, job: Id)
    requires |steps| < |states|
  {
    TookNew(states, steps, from, x, i, job) || TookDue(states, steps, from, x, i, job)
  }

  lemma TookStays(states: seq<State>, steps: seq<Step>, states': seq<State>, steps': seq<Step>, from: nat, x: Id, i: Id,
                  job: Id)
    requires |steps| < |states| && states <= states' && steps <= steps' && |steps'| < |states'|
    ensures TookNew(states, steps, from, x, i, job) ==> TookNew(states', steps', from, x, i, job)
    ensures TookDue(states, steps, from, x, i, job) ==> TookDue(states', steps', from, x, i, job)
  {
    if TookNew(states, steps, from, x, i, job) {
      var k :| from <= k < |steps| && TookNewAt(states[k], steps[k], x, i, job);
      assert TookNewAt(states'[k], steps'[k], x, i, job);
    }
    if TookDue(states, steps, from, x, i, job) {
      var j, k :| from <= j < k < |steps| && NothingNewAt(states[j], steps[j], x)
                  && TookDueAt(states[k], steps[k], x, states[j].now, i, job);
      assert NothingNewAt(states'[j], steps'[j], x) && TookDueAt(states'[k], steps'[k], x, states'[j].now, i, job);
    }
  }

  lemma NothingNewIsFree(s: State, x: Id)
    requires At(s, x, Opened) && forall i :: !NewCandidate(s, i)
    ensures forall i :: New(s, i) ==> LockedByOther(s, x, i)
  {
    forall i | New(s, i) ensures LockedByOther(s, x, i) {
      CandidateIff(s, x, 0, i);
    }
  }

  lemma NothingIsFree(s: State, x: Id, until: Time)
    requires At(s, x, NothingNew) && forall i :: !DueCandidate(s, until, i)
    ensures forall i :: DueBy(s, until, i) ==> LockedByOther(s, x, i) || JobLockedByOther(s, x, s.schedules[i].jobId)
  {
    forall i | DueBy(s, until, i) ensures LockedByOther(s, x, i) || JobLockedByOther(s, x, s.schedules[i].jobId) {
      CandidateIff(s, x, until, i);
    }
  }

  /** The three types of job that a licence feature guards: ingestion, telemetry and the usage sync. */
  predicate Guarded(jobType: JobType) {
    !jobType.MvRefresh? && !jobType.Unknown?
  }

  /** A refused slot is skipped, whether or not the audit trail hears of it. */
  predicate Skips(ended: Ended, did: seq<Deed>, v: Session, raises: set<Point>) {
    || (ended.Skipped? && did == [SkippedSlot(SlotOf(v), v.job)])
    || (ended.Raised? && did == [] && EarlyRaises(raises))
    || (ended.Raised? && did == [SkippedSlot(SlotOf(v), v.job)] && AtAuditEnd in raises)
  }

  ghost predicate CouldNotDisableAt(s: State, x: Id, i: Id) {
    At(s, x, DisableOpened) && s.sessions[x].schedule == i && (RowHeld(s, i) || i !in s.schedules)
  }

  lemma FirstNew(s: State, k: Id) returns (i: Id)
    requires NewCandidate(s, k)
    ensures NewCandidate(s, i) && forall j :: NewCandidate(s, j) ==> i <= j
    decreases k
  {
    i := k;
    if j: Id :| j < k && NewCandidate(s, j) {
      i := FirstNew(s, j);
    }
  }

  predicate NotLater(s: State, i: Id, j: Id) {
    && i in s.schedules && j in s.schedules && s.schedules[i].nextRunAt.Some? && s.schedules[j].nextRunAt.Some?
    && s.schedules[i].nextRunAt.value <= s.schedules[j].nextRunAt.value
  }

  lemma EarliestDue(s: State, txn: Time, due: set<Id>) returns (i: Id)
    requires due != {} && forall j :: j in due ==> DueCandidate(s, txn, j)
    ensures i in due && forall j :: j in due ==> NotLater(s, i, j)
    decreases |due|
  {
    var k :| k in due;
    i := k;
    if due != {k} {
      var j := EarliestDue(s, txn, due - {k});
      i := if NotLater(s, k, j) then k else j;
      forall l | l in due ensures NotLater(s, i, l) {
        assert l != k ==> l in due - {k} && NotLater(s, j, l);
      }
    }
  }

  lemma FirstDue(s: State, txn: Time, k: Id) returns (i: Id)
    requires DueCandidate(s, txn, k)
    ensures DueCandidate(s, txn, i)
    ensures forall j :: DueCandidate(s, txn, j) ==> s.schedules[i].nextRunAt.value <= s.schedules[j].nextRunAt.value
  {
    var due := set j | j in s.schedules && DueCandidate(s, txn, j);
    assert k in due;
    i := EarliestDue(s, txn, due);
    forall j | DueCandidate(s, txn, j) ensures NotLater(s, i, j) {
      assert j in due;
    }
  }

  /** A closed connection leaves no advisory lock behind. */
  lemma ClosedHoldsNothing(hash: Hash, states: seq<State>, steps: seq<Step>, n: nat, x: Id)
    requires IsRun(hash, states, steps) && n <= |steps| && x !in states[n].sessions
    ensures forall k :: k in states[n].locks ==> states[n].locks[k] != x
  {
    InvAlways(hash, states, steps, n);
  }

  lemma UnusedId(used: set<Id>) returns (id: Id)
    ensures id !in used
  {
    id := Bound(used);
  }

  lemma {:induction false} Bound(used: set<Id>) returns (bound: nat)
    ensures forall i :: i in used ==> i < bound
    decreases |used|
  {
    bound := 0;
    if used != {} {
      var i :| i in used;
      var rest := Bound(used - {i});
      bound := if rest <= i then i + 1 else rest;
      forall k | k in used ensures k < bound {
        assert k != i ==> k in used - {i};
      }
    }
  }
}
