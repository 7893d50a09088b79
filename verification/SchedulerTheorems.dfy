/** Mutual exclusion and single consumption of due slots, over every run of the protocol. */
module SchedulerTheorems {
  import opened Options
  import opened Scheduler
  import opened SchedulerSafety

  // ------------------------------------------------------------------------------- execution

  /** Two sessions between lock and unlock never share a lock key, whatever the hash; so colliding keys only exclude
      more. A job's body runs under its own lock, for a run row that is already committed. */
  lemma ExecutionIsExclusive(hash: Hash, states: seq<State>, steps: seq<Step>, n: nat)
    requires IsRun(hash, states, steps) && n <= |steps|
    ensures forall x, y :: x in states[n].sessions && y in states[n].sessions && x != y
                           && HoldsLock(states[n].sessions[x]) && HoldsLock(states[n].sessions[y])
                           ==> hash(states[n].sessions[x].job) != hash(states[n].sessions[y].job)
    ensures forall x :: At(states[n], x, Executing) ==>
                          var v := states[n].sessions[x];
                          && hash(v.job) in states[n].locks && states[n].locks[hash(v.job)] == x
                          && v.run in states[n].runs && states[n].runs[v.run].jobId == v.job
  {
    InvAlways(hash, states, steps, n);
    var s := states[n];
    forall x | x in s.sessions ensures SessionOk(hash, s, x, s.sessions[x]) {
    }
  }

  // ------------------------------------------------------------------------------- due slots

  ghost predicate Advanced(s: State, t: State, i: Id) {
    && i in s.schedules && i in t.schedules && s.schedules[i].nextRunAt.Some? && t.schedules[i].nextRunAt.Some?
    && s.schedules[i].nextRunAt != t.schedules[i].nextRunAt
  }

  ghost predicate SomeAdvance(s: State, t: State) {
    exists i :: Advanced(s, t, i)
  }

  ghost predicate NewScheduledRun(s: State, t: State, r: Id) {
    r !in s.runs && r in t.runs && t.runs[r].trigger.BySchedule?
  }

  /** The commit that consumes a due slot of schedule `i`: with a new run, or because the licence refused it. */
  predicate Consumes(s: State, e: Step, i: Id) {
    && e.Commit? && e.x in s.sessions && s.sessions[e.x].schedule == i
    && (s.sessions[e.x].pc.ClaimPending? || s.sessions[e.x].pc.SkipPending?)
  }

  predicate Skips(s: State, e: Step) {
    e.Commit? && e.x in s.sessions && s.sessions[e.x].pc.SkipPending?
  }

  /** At the commit the schedule and its job are enabled, the slot is due, and the schedule lands strictly after the
      moment the claim was computed from; the run row, if any, appears in the same commit. */
  lemma ConsumptionIsSound(hash: Hash, s: State, e: Step, i: Id)
    requires Inv(hash, s) && Can(s, e) && Consumes(s, e, i)
    ensures
      var v := s.sessions[e.x];
      var t := Do(hash, s, e);
      && i in s.schedules && s.schedules[i].enabled && s.schedules[i].jobId in s.jobs
      && s.jobs[s.schedules[i].jobId].enabled
      && s.schedules[i].nextRunAt == Some(v.slot) && v.slot <= v.base <= s.now && v.base < v.next
      && i in t.schedules && t.schedules[i] == s.schedules[i].(nextRunAt := Some(v.next))
      && (Skips(s, e) ==> t.runs == s.runs)
      && (!Skips(s, e) ==> v.run !in s.runs
                           && t.runs == s.runs[v.run := Run(s.schedules[i].jobId, BySchedule, v.txn, None, Running,
                                                            None)])
  {
    assert SessionOk(hash, s, e.x, s.sessions[e.x]);
  }

  /** Outside the administrators' edits, a due time moves exactly when a commit consumes the slot, and a scheduled run
      row appears exactly when that commit is not a licence skip: both happen in one commit or neither does. */
  lemma AdvanceAndRunTogether(hash: Hash, s: State, e: Step)
    requires Inv(hash, s) && Can(s, e) && !e.Admin?
    ensures forall i :: Advanced(s, Do(hash, s, e), i) <==> Consumes(s, e, i)
    ensures (exists r :: NewScheduledRun(s, Do(hash, s, e), r)) <==> (exists i :: Consumes(s, e, i)) && !Skips(s, e)
  {
    var t := Do(hash, s, e);
    if e.Commit? {
      var v := s.sessions[e.x];
      assert SessionOk(hash, s, e.x, v);
      if v.pc.ClaimPending? {
        assert Consumes(s, e, v.schedule) && NewScheduledRun(s, t, v.run);
      }
    }
  }

  function ScheduledRuns(s: State): set<Id> {
    set r | r in s.runs && s.runs[r].trigger.BySchedule?
  }

  /** How many of the first `n` steps moved a due time that was set, the administrators' edits aside. */
  ghost function Advances(states: seq<State>, steps: seq<Step>, n: nat): nat
    requires n <= |steps| < |states|
  {
    if n == 0 then 0
    else Advances(states, steps, n - 1)
         + if !steps[n - 1].Admin? && SomeAdvance(states[n - 1], states[n]) then 1 else 0
  }

  function LicenceSkips(states: seq<State>, steps: seq<Step>, n: nat): nat
    requires n <= |steps| < |states|
  {
    if n == 0 then 0
    else LicenceSkips(states, steps, n - 1) + if Skips(states[n - 1], steps[n - 1]) then 1 else 0
  }

  lemma ScheduledRunsStep(hash: Hash, s: State, e: Step)
    requires Inv(hash, s) && Can(s, e)
    ensures
      var before := ScheduledRuns(s);
      var after := ScheduledRuns(Do(hash, s, e));
      if e.Commit? && s.sessions[e.x].pc.ClaimPending?
      then s.sessions[e.x].run !in before && after == before + {s.sessions[e.x].run}
      else after == before
  {
    if e.Commit? {
      assert SessionOk(hash, s, e.x, s.sessions[e.x]);
    }
  }

  predicate IsConsumption(s: State, e: Step) {
    && e.Commit? && e.x in s.sessions
    && (s.sessions[e.x].pc.ClaimPending? || s.sessions[e.x].pc.SkipPending?)
  }

  lemma AdvanceIffConsumption(hash: Hash, s: State, e: Step)
    requires Inv(hash, s) && Can(s, e) && !e.Admin?
    ensures SomeAdvance(s, Do(hash, s, e)) <==> IsConsumption(s, e)
  {
    AdvanceAndRunTogether(hash, s, e);
    if IsConsumption(s, e) {
      assert Consumes(s, e, s.sessions[e.x].schedule);
    }
  }

  lemma ScheduledRunsCount(hash: Hash, s: State, e: Step)
    requires Inv(hash, s) && Can(s, e)
    ensures |ScheduledRuns(Do(hash, s, e))|
            == |ScheduledRuns(s)| + if IsConsumption(s, e) && !Skips(s, e) then 1 else 0
  {
    ScheduledRunsStep(hash, s, e);
  }

  /** Over every run, crashes included: advances of due schedules = scheduled run rows written + licence skips. */
  lemma {:induction false} SlotsAreConserved(hash: Hash, states: seq<State>, steps: seq<Step>, n: nat)
    requires IsRun(hash, states, steps) && n <= |steps|
    ensures Advances(states, steps, n) + |ScheduledRuns(states[0])|
            == |ScheduledRuns(states[n])| + LicenceSkips(states, steps, n)
  {
    if n > 0 {
      SlotsAreConserved(hash, states, steps, n - 1);
      var s, e := states[n - 1], steps[n - 1];
      InvAlways(hash, states, steps, n - 1);
      ScheduledRunsCount(hash, s, e);
      if !e.Admin? {
        AdvanceIffConsumption(hash, s, e);
      }
    }
  }

  /** An administrator's write to schedule `i`, or the disabling of it for its cron expression. */
  ghost predicate Resets(s: State, e: Step, i: Id)
    requires Can(s, e)
  {
    || (e.Admin? && (i !in s.schedules || i !in EditSchedules(s, e.a) || EditSchedules(s, e.a)[i] != s.schedules[i]))
    || (e.Commit? && s.sessions[e.x].pc.DisableInserted? && s.sessions[e.x].schedule == i)
  }

  lemma DueTimeNeverFalls(hash: Hash, s: State, e: Step, i: Id)
    requires Inv(hash, s) && Can(s, e) && !Resets(s, e, i)
    requires i in s.schedules && s.schedules[i].nextRunAt.Some?
    ensures i in Do(hash, s, e).schedules && Do(hash, s, e).schedules[i].nextRunAt.Some?
    ensures s.schedules[i].nextRunAt.value <= Do(hash, s, e).schedules[i].nextRunAt.value
  {
    if e.Commit? {
      assert SessionOk(hash, s, e.x, s.sessions[e.x]);
    }
  }

  lemma {:induction false} DueTimeRises(hash: Hash, states: seq<State>, steps: seq<Step>, i: Id, m: nat, n: nat)
    requires IsRun(hash, states, steps) && m <= n <= |steps|
    requires forall k :: m <= k < n ==> !Resets(states[k], steps[k], i)
    requires i in states[m].schedules && states[m].schedules[i].nextRunAt.Some?
    ensures i in states[n].schedules && states[n].schedules[i].nextRunAt.Some?
    ensures states[m].schedules[i].nextRunAt.value <= states[n].schedules[i].nextRunAt.value
    decreases n
  {
    if m < n {
      DueTimeRises(hash, states, steps, i, m, n - 1);
      InvAlways(hash, states, steps, n - 1);
      DueTimeNeverFalls(hash, states[n - 1], steps[n - 1], i);
    }
  }

  /** Two commits that consume a slot of the same schedule, with no reset of it in between, consume different slots:
      the later slot is later than the clock was at the earlier claim. However many schedulers there are, no due slot
      is consumed twice. */
  lemma EachSlotConsumedOnce(hash: Hash, states: seq<State>, steps: seq<Step>, i: Id, m: nat, n: nat)
    requires IsRun(hash, states, steps) && m < n < |steps|
    requires Consumes(states[m], steps[m], i) && Consumes(states[n], steps[n], i)
    requires forall k :: m < k < n ==> !Resets(states[k], steps[k], i)
    ensures i in states[m].schedules && i in states[n].schedules
    ensures states[m].schedules[i].nextRunAt.Some? && states[n].schedules[i].nextRunAt.Some?
    ensures states[m].schedules[i].nextRunAt.value <= states[m].sessions[steps[m].x].base
              < states[n].schedules[i].nextRunAt.value
  {
    InvAlways(hash, states, steps, m);
    InvAlways(hash, states, steps, n);
    ConsumptionIsSound(hash, states[m], steps[m], i);
    ConsumptionIsSound(hash, states[n], steps[n], i);
    DueTimeRises(hash, states, steps, i, m + 1, n);
  }

  /** Disabling for a cron expression that does not parse: the schedule is no candidate for any later tick until an
      administrator changes it, and a failed, finished row of its job says why. */
  lemma DisabledIsOut(hash: Hash, s: State, x: Id)
    requires Inv(hash, s) && x in s.sessions && s.sessions[x].pc.DisableInserted?
    ensures
      var v, t := s.sessions[x], DoCommit(s, x);
      && !NewCandidate(t, v.schedule) && (forall txn :: !DueCandidate(t, txn, v.schedule))
      && v.run !in s.runs && v.run in t.runs && t.runs[v.run].status.Failed? && t.runs[v.run].jobId == v.job
      && t.runs[v.run].finishedAt.Some? && t.runs[v.run].error == v.error
      && (forall i :: i in s.schedules && i != v.schedule ==> i in t.schedules && t.schedules[i] == s.schedules[i])
      && (forall r :: r in s.runs ==> r in t.runs && t.runs[r] == s.runs[r])
  {
    assert SessionOk(hash, s, x, s.sessions[x]);
  }
}
