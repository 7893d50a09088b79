/** What the administrators' writes do to schedules: a paused schedule is not run, and a resumed one catches up nothing.
    */
module SchedulerEdits {
  import opened Options
  import opened Scheduler
  import opened SchedulerSafety
  import opened SchedulerPicks

  /** The write is to schedule `i`. */
  predicate Writes(s: State, e: Step, i: Id) {
    e.Admin? &&
    match e.a
    case SetSchedules(job, _) => i in s.schedules && s.schedules[i].jobId == job
    case SetJobEnabled(_, _) => false
    case Create(k, _, _, _) => k == i
    case Toggle(k, _) => k == i
    case Update(k, _, _, _) => k == i
    case Delete(k) => k == i
  }

  predicate Pauses(s: State, e: Step, i: Id) {
    Writes(s, e, i) && (e.a == Toggle(i, false) || (e.a.SetSchedules? && !e.a.enabled))
  }

  predicate Resumes(s: State, e: Step, i: Id) {
    Writes(s, e, i) && (e.a == Toggle(i, true) || (e.a.SetSchedules? && e.a.enabled))
  }

  /** A pause disables the schedule and a resumption enables it; both take its due time. A new schedule is enabled and
      has the time it was given, an edited one the new expression and time; a deleted one is gone. No other schedule is
      touched, and a write to a schedule leaves its job as it was. */
  lemma WriteSays(hash: Hash, s: State, e: Step, i: Id)
    requires Can(s, e) && e.Admin?
    ensures
      var t := Do(hash, s, e);
      && (!Writes(s, e, i) ==>
            (i in t.schedules <==> i in s.schedules) && (i in s.schedules ==> t.schedules[i] == s.schedules[i]))
      && (Pauses(s, e, i) || Resumes(s, e, i) ==>
            && i in s.schedules && i in t.schedules && t.schedules[i].nextRunAt.None?
            && (t.schedules[i].enabled <==> Resumes(s, e, i))
            && t.schedules[i].jobId == s.schedules[i].jobId && t.schedules[i].cron == s.schedules[i].cron)
      && (forall job, cron, at :: e.a == Create(i, job, cron, at) ==>
            i in t.schedules && t.schedules[i] == Schedule(job, cron, at, true))
      && (forall cron, at, on :: e.a == Update(i, cron, at, on) ==>
            && i in t.schedules && t.schedules[i].cron == cron && t.schedules[i].nextRunAt == at
            && t.schedules[i].jobId == s.schedules[i].jobId
            && (t.schedules[i].enabled <==> on == Some(true) || (on.None? && s.schedules[i].enabled)))
      && (e.a == Delete(i) ==> i !in t.schedules)
      && t.runs == s.runs && t.jobs.Keys == s.jobs.Keys
      && forall j :: j in s.jobs ==>
           && t.jobs[j].jobType == s.jobs[j].jobType
           && (t.jobs[j].enabled
               <==> if e.a.SetJobEnabled? && e.a.job == j then e.a.enabled else s.jobs[j].enabled)
  {
  }

  ghost predicate Unwritten(states: seq<State>, steps: seq<Step>, m: nat, n: nat, i: Id)
    requires n <= |steps| < |states|
  {
    forall k :: m <= k < n ==> !Writes(states[k], steps[k], i)
  }

  // ------------------------------------------------------------------------------- paused

  predicate Off(s: State, i: Id) {
    i in s.schedules && !s.schedules[i].enabled
  }

  predicate Takes(e: Step, i: Id) {
    e.Act? && (e.m == PickNew(i) || e.m == PickDue(i))
  }

  lemma CommitKeepsOff(s: State, x: Id, i: Id)
    requires x in s.sessions && Off(s, i)
    ensures Off(DoCommit(s, x), i)
  {
  }

  lemma OffStays(hash: Hash, s: State, e: Step, i: Id)
    requires Can(s, e) && Off(s, i) && !Writes(s, e, i)
    ensures Off(Do(hash, s, e), i) && !Takes(e, i)
  {
    if e.Admin? {
      WriteSays(hash, s, e, i);
    } else if e.Commit? {
      CommitKeepsOff(s, e.x, i);
    }
  }

  /** Over every run: from a pause to the next write to the schedule, no tick takes it. */
  lemma {:induction false} PausedIsNotTaken(hash: Hash, states: seq<State>, steps: seq<Step>, i: Id, m: nat, n: nat)
    requires IsRun(hash, states, steps) && m < n <= |steps| && Pauses(states[m], steps[m], i)
    requires Unwritten(states, steps, m + 1, n, i)
    ensures Off(states[n], i) && forall k :: m <= k < n ==> !Takes(steps[k], i)
  {
    assert Can(states[n - 1], steps[n - 1]) && states[n] == Do(hash, states[n - 1], steps[n - 1]);
    if m == n - 1 {
      WriteSays(hash, states[m], steps[m], i);
    } else {
      PausedIsNotTaken(hash, states, steps, i, m, n - 1);
      OffStays(hash, states[n - 1], steps[n - 1], i);
    }
  }

  // ------------------------------------------------------------------------------- resumed

  /** A connection that is going to give schedule `i` a due time gives it one that is later than `since`. */
  predicate GivesLater(v: Session, i: Id, since: Time) {
    (HoldsRow(v) && v.schedule == i && !v.pc.NewPicked? && !v.pc.DuePicked? && !v.pc.DisableUpdated?
     && !v.pc.DisableInserted?) ==> since < v.next
  }

  ghost predicate NoBacklog(s: State, i: Id, since: Time) {
    && since <= s.now && i in s.schedules
    && (s.schedules[i].nextRunAt.Some? ==> since < s.schedules[i].nextRunAt.value)
    && forall x :: x in s.sessions ==> GivesLater(s.sessions[x], i, since)
  }

  lemma ResumedHasNone(hash: Hash, s: State, e: Step, i: Id)
    requires Can(s, e) && Resumes(s, e, i)
    ensures NoBacklog(Do(hash, s, e), i, s.now)
  {
    WriteSays(hash, s, e, i);
    forall x | x in s.sessions ensures GivesLater(s.sessions[x], i, s.now) {
      assert !RowHeld(s, i);
      assert !(HoldsRow(s.sessions[x]) && s.sessions[x].schedule == i);
    }
  }

  lemma MoveGivesLater(s: State, x: Id, m: Move, i: Id, since: Time)
    requires CanMove(s, x, m) && since <= s.now
    requires x in s.sessions ==> GivesLater(s.sessions[x], i, since) && !s.sessions[x].trigger.ByValidation?
    ensures GivesLater(Moved(s, x, m), i, since)
  {
  }

  lemma MoveKeepsNone(s: State, x: Id, m: Move, i: Id, since: Time)
    requires CanMove(s, x, m) && NoBacklog(s, i, since)
    requires x in s.sessions ==> !s.sessions[x].trigger.ByValidation?
    ensures NoBacklog(DoAct(s, x, m), i, since)
  {
    var t := DoAct(s, x, m);
    MoveGivesLater(s, x, m, i, since);
    forall y | y in t.sessions ensures GivesLater(t.sessions[y], i, since) {
      assert y != x ==> t.sessions[y] == s.sessions[y];
    }
  }

  lemma CommitKeepsNone(hash: Hash, s: State, x: Id, i: Id, since: Time)
    requires x in s.sessions && Committing(s.sessions[x]) && NoBacklog(s, i, since)
    requires SessionOk(hash, s, x, s.sessions[x])
    ensures NoBacklog(DoCommit(s, x), i, since)
  {
    var t := DoCommit(s, x);
    assert GivesLater(s.sessions[x], i, since);
    forall y | y in t.sessions ensures GivesLater(t.sessions[y], i, since) {
      assert y != x ==> t.sessions[y] == s.sessions[y];
    }
  }

  lemma OtherKeepsNone(hash: Hash, s: State, e: Step, i: Id, since: Time)
    requires Can(s, e) && NoBacklog(s, i, since) && !Writes(s, e, i) && !e.Act? && !e.Commit?
    ensures NoBacklog(Do(hash, s, e), i, since)
  {
    if e.Admin? {
      WriteSays(hash, s, e, i);
    }
    var t := Do(hash, s, e);
    forall y | y in t.sessions ensures GivesLater(t.sessions[y], i, since) {
      assert y in s.sessions && GivesLater(s.sessions[y], i, since);
    }
  }

  lemma StepKeepsNone(hash: Hash, s: State, e: Step, i: Id, since: Time)
    requires Inv(hash, s) && Can(s, e) && NoBacklog(s, i, since) && !Writes(s, e, i)
    ensures NoBacklog(Do(hash, s, e), i, since)
  {
    match e
    case Act(x, m) =>
      assert x in s.sessions ==> SessionOk(hash, s, x, s.sessions[x]);
      MoveKeepsNone(s, x, m, i, since);
    case Commit(x) =>
      assert SessionOk(hash, s, x, s.sessions[x]);
      CommitKeepsNone(hash, s, x, i, since);
    case _ => OtherKeepsNone(hash, s, e, i, since);
  }

  /** Over every run: from the resumption of a schedule to the next write to it, its due time, if it has one, is later
      than the resumption. So no slot it missed while it was paused is run. */
  lemma {:induction false} ResumedCatchesUpNothing(hash: Hash, states: seq<State>, steps: seq<Step>, i: Id, m: nat,
                                                   n: nat)
    requires IsRun(hash, states, steps) && m < n <= |steps| && Resumes(states[m], steps[m], i)
    requires Unwritten(states, steps, m + 1, n, i)
    ensures NoBacklog(states[n], i, states[m].now)
  {
    if m == n - 1 {
      ResumedHasNone(hash, states[m], steps[m], i);
    } else {
      ResumedCatchesUpNothing(hash, states, steps, i, m, n - 1);
      InvAlways(hash, states, steps, n - 1);
      assert !Writes(states[n - 1], steps[n - 1], i);
      StepKeepsNone(hash, states[n - 1], steps[n - 1], i, states[m].now);
    }
  }
}
