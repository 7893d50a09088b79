/** The job protocol of worker/app/scheduler.py as a state machine whose steps are single SQL statements and commits.

    Any number of scheduler ticks and run-now threads are in flight, each with its own connection ("session"). The
    tables hold committed rows only; a session's uncommitted writes are determined by its program counter and its
    local variables, and reach the tables at its commit. Row locks (FOR UPDATE, UPDATE) also follow from the program
    counter. Advisory locks are keyed by `hash(job)` and belong to a session, not to a transaction. */
module Scheduler {
  import opened Options

  type Id = nat
  type Time = int
  type Hash = Id -> int

  /** The job types `_execute_job` dispatches on; any other text is unknown to it. */
  datatype JobType = GraphIngest | MvRefresh | CopilotTelemetry | CopilotUsageSync | Unknown(text: string)
  datatype Job = Job(jobType: JobType, enabled: bool)
  datatype Schedule = Schedule(jobId: Id, cron: string, nextRunAt: Option<Time>, enabled: bool)
  /** The text in a run's error column: the constant `INTERRUPTED_RUN_ERROR`, or what was reported. */
  datatype Reason = Interrupted | Reported(text: string)
  datatype Status = Running | Success | Failed

  // What started a run; the audit trail calls it the trigger.
  datatype Trigger = BySchedule | ByRunNow | ByValidation

  datatype Run = Run(jobId: Id, trigger: Trigger, startedAt: Time, finishedAt: Option<Time>,
                     status: Status, error: Option<Reason>)

  /** Where a connection stands: the name says what it did last. */
  datatype Pc =
    | Opened | NewPicked | NewReady | NewPending | NothingNew
    | DuePicked | DueReady | SkipPending | Cleared
    | Locked | Inserted | ClaimPending
    | Claimed | Executing | Executed | FinishPending | Unlocked
    | DisableOpened | DisableUpdated | DisableInserted
    | Done

  /** The local variables of `_run_due_schedule` / `run_job_once`; `slot` is the due time read with the row, `txn` the
      start of the open transaction (SQL now()), `base` the moment the next run was computed from. */
  datatype Session = Session(trigger: Trigger, pc: Pc, schedule: Id, job: Id, slot: Time, txn: Time, base: Time,
                             next: Time, run: Id, status: Status, error: Option<Reason>)

  datatype State = State(now: Time, jobs: map<Id, Job>, schedules: map<Id, Schedule>, runs: map<Id, Run>,
                         usedRunIds: set<Id>, locks: map<int, Id>, sessions: map<Id, Session>)

  /** Statements that change no table and no advisory lock: they read, take row locks, compute, or write rows that
      stay invisible until the commit. */
  datatype Move =
    // one scheduler tick
    | Open
    | PickNew(i: Id)
    | NoNew
    | PickDue(i: Id)
    | NoDue
    | Compute(outcome: Option<Time>)
    | UpdateNew
    | License(allowed: bool)
    // shared with run-now
    | OpenRunNow(job: Id)
    | InsertRun(run: Id)
    | UpdateSchedule
    | Execute
    | Finish(status: Status, error: Option<Reason>)
    | UpdateRun
    // disabling a schedule whose cron expression does not parse
    | DisableUpdate
    | DisableInsert(run: Id, reason: Reason)

  /** The administrators' own transactions: api.py pause/resume, and the schedules route. */
  datatype Edit =
    | SetSchedules(job: Id, enabled: bool)
    | SetJobEnabled(job: Id, enabled: bool)
    | Create(i: Id, job: Id, cron: string, at: Option<Time>)
    | Toggle(i: Id, enabled: bool)
    | Update(i: Id, cron: string, at: Option<Time>, enabledOr: Option<bool>)
    | Delete(i: Id)

  datatype Step =
    | Tick(to: Time)
    | Act(x: Id, m: Move)
    | Commit(x: Id)
    | TryLock(x: Id)
    | Unlock(x: Id)
    | Close(x: Id)     // `finally: conn.close()` on any path, or a crash
    | Recover          // startup recovery
    | Admin(a: Edit)

  // ---------------------------------------------------------------------------------------------- locks

  predicate HoldsLock(x: Session) {
    || x.pc.Locked? || x.pc.Inserted? || x.pc.ClaimPending? || x.pc.Claimed? || x.pc.Executing? || x.pc.Executed?
    || x.pc.FinishPending?
  }

  predicate HoldsRow(x: Session) {
    x.trigger.BySchedule? &&
    (|| x.pc.NewPicked? || x.pc.NewReady? || x.pc.NewPending? || x.pc.DuePicked? || x.pc.DueReady? || x.pc.SkipPending?
     || x.pc.Cleared? || x.pc.Locked? || x.pc.Inserted? || x.pc.ClaimPending? || x.pc.DisableUpdated?
     || x.pc.DisableInserted?)
  }

  predicate HoldsJobRow(x: Session) {
    x.trigger.BySchedule? &&
    (|| x.pc.DuePicked? || x.pc.DueReady? || x.pc.SkipPending? || x.pc.Cleared? || x.pc.Locked? || x.pc.Inserted?
     || x.pc.ClaimPending?)
  }

  predicate OwnsRun(x: Session) {
    (x.pc.Claimed? || x.pc.Executing? || x.pc.Executed? || x.pc.FinishPending? || x.pc.Unlocked?)
  }

  predicate InsertPending(x: Session) {
    (x.pc.Inserted? || x.pc.ClaimPending? || x.pc.DisableInserted?)
  }

  predicate UpdatePending(x: Session) {
    (x.pc.FinishPending? || x.pc.Unlocked?)
  }

  ghost predicate RowHeld(s: State, i: Id) {
    exists x :: x in s.sessions && HoldsRow(s.sessions[x]) && s.sessions[x].schedule == i
  }

  ghost predicate JobRowHeld(s: State, j: Id) {
    exists x :: x in s.sessions && HoldsJobRow(s.sessions[x]) && s.sessions[x].job == j
  }

  // ---------------------------------------------------------------------------------------------- queries

  ghost predicate NewCandidate(s: State, i: Id) {
    i in s.schedules && s.schedules[i].enabled && s.schedules[i].nextRunAt.None? && !RowHeld(s, i)
  }

  ghost predicate DueCandidate(s: State, txn: Time, i: Id) {
    && i in s.schedules && s.schedules[i].enabled
    && s.schedules[i].jobId in s.jobs && s.jobs[s.schedules[i].jobId].enabled
    && s.schedules[i].nextRunAt.Some? && s.schedules[i].nextRunAt.value <= txn
    && !RowHeld(s, i) && !JobRowHeld(s, s.schedules[i].jobId)
  }

  /** `get_job_type_license_feature`: the job types a licence feature guards. */
  predicate Gated(jobType: JobType) {
    jobType.GraphIngest? || jobType.CopilotTelemetry? || jobType.CopilotUsageSync?
  }

  predicate Recoverable(r: Run) {
    r.status.Running? && r.finishedAt.None?
  }

  // ---------------------------------------------------------------------------------------------- moves

  predicate At(s: State, x: Id, pc: Pc) {
    x in s.sessions && s.sessions[x].pc == pc
  }

  /** When a move may happen. A statement that has to wait for a row lock is not enabled until the lock is gone. */
  ghost predicate CanMove(s: State, x: Id, m: Move) {
    match m
    case Open => x !in s.sessions
    case PickNew(i) => At(s, x, Opened) && NewCandidate(s, i) && forall k :: NewCandidate(s, k) ==> i <= k
    case NoNew => At(s, x, Opened) && forall k :: !NewCandidate(s, k)
    case PickDue(i) =>
      && At(s, x, NothingNew) && DueCandidate(s, s.sessions[x].txn, i)
      && forall k :: DueCandidate(s, s.sessions[x].txn, k) ==>
                       s.schedules[i].nextRunAt.value <= s.schedules[k].nextRunAt.value
    case NoDue => At(s, x, NothingNew) && forall k :: !DueCandidate(s, s.sessions[x].txn, k)
    case Compute(outcome) =>
      (At(s, x, NewPicked) || At(s, x, DuePicked)) && (outcome.Some? ==> s.now < outcome.value)
    case UpdateNew => At(s, x, NewReady)
    case License(allowed) =>
      && At(s, x, DueReady)
      && (!allowed ==> s.sessions[x].job in s.jobs && Gated(s.jobs[s.sessions[x].job].jobType))
    case OpenRunNow(job) => x !in s.sessions && job in s.jobs
    case InsertRun(run) => At(s, x, Locked) && run !in s.usedRunIds
    case UpdateSchedule => At(s, x, Inserted) && s.sessions[x].trigger.BySchedule?
    case Execute => At(s, x, Claimed)
    case Finish(status, error) =>
      At(s, x, Executing) && ((status.Success? && error.None?) || (status.Failed? && error.Some?))
    case UpdateRun => At(s, x, Executed)
    case DisableUpdate => At(s, x, DisableOpened) && !RowHeld(s, s.sessions[x].schedule)
    case DisableInsert(run, reason) => At(s, x, DisableUpdated) && run !in s.usedRunIds
  }

  function FreshSession(trigger: Trigger, pc: Pc, job: Id, now: Time): Session {
    Session(trigger, pc, 0, job, 0, now, 0, 0, 0, Running, None)
  }

  /** The moving connection afterwards. */
  ghost function Moved(s: State, x: Id, m: Move): Session
    requires CanMove(s, x, m)
  {
    match m
    case Open => FreshSession(BySchedule, Opened, 0, s.now)
    case OpenRunNow(job) => FreshSession(ByRunNow, Cleared, job, s.now)
    case PickNew(i) => s.sessions[x].(pc := NewPicked, schedule := i, job := s.schedules[i].jobId, txn := s.now)
    case NoNew => s.sessions[x].(pc := NothingNew, txn := s.now)
    case PickDue(i) =>
      s.sessions[x].(pc := DuePicked, schedule := i, job := s.schedules[i].jobId,
                     slot := s.schedules[i].nextRunAt.value)
    case NoDue => s.sessions[x].(pc := Done)
    case Compute(outcome) =>
      if outcome.None? then s.sessions[x].(pc := DisableOpened)
      else s.sessions[x].(pc := if s.sessions[x].pc.NewPicked? then NewReady else DueReady,
                          next := outcome.value, base := s.now)
    case UpdateNew => s.sessions[x].(pc := NewPending)
    case License(allowed) => s.sessions[x].(pc := if allowed then Cleared else SkipPending)
    case InsertRun(run) => s.sessions[x].(pc := Inserted, run := run)
    case UpdateSchedule => s.sessions[x].(pc := ClaimPending)
    case Execute => s.sessions[x].(pc := Executing)
    case Finish(status, error) => s.sessions[x].(pc := Executed, status := status, error := error)
    case UpdateRun => s.sessions[x].(pc := FinishPending, txn := s.now)
    case DisableUpdate =>
      if s.sessions[x].schedule in s.schedules then s.sessions[x].(pc := DisableUpdated, txn := s.now)
      else s.sessions[x].(pc := Done)
    case DisableInsert(run, reason) => s.sessions[x].(pc := DisableInserted, run := run, error := Some(reason))
  }

  /** The run id a move draws (gen_random_uuid). */
  function Drawn(m: Move): set<Id> {
    match m
    case InsertRun(run) => {run}
    case DisableInsert(run, _) => {run}
    case _ => {}
  }

  // ---------------------------------------------------------------------------------------------- commits

  /** A transaction with writes, at its COMMIT. */
  predicate Committing(v: Session) {
    || (v.pc.NewPending? || v.pc.SkipPending? || v.pc.ClaimPending? || v.pc.Unlocked? || v.pc.DisableInserted?)
    || (v.pc.Inserted? && v.trigger.ByRunNow?)
  }

  predicate Advances(v: Session) {
    (v.pc.NewPending? || v.pc.SkipPending? || v.pc.ClaimPending?)
  }

  predicate Claims(v: Session) {
    v.pc.ClaimPending? || (v.pc.Inserted? && v.trigger.ByRunNow?)
  }

  function CommitSchedules(schedules: map<Id, Schedule>, v: Session): map<Id, Schedule> {
    if v.schedule !in schedules then schedules
    else if Advances(v) then schedules[v.schedule := schedules[v.schedule].(nextRunAt := Some(v.next))]
    else if v.pc.DisableInserted?
    then schedules[v.schedule := schedules[v.schedule].(enabled := false, nextRunAt := None)]
    else schedules
  }

  function CommitRuns(runs: map<Id, Run>, v: Session): map<Id, Run> {
    if Claims(v) then runs[v.run := Run(v.job, v.trigger, v.txn, None, Running, None)]
    else if v.pc.DisableInserted? then runs[v.run := Run(v.job, ByValidation, v.txn, Some(v.txn), Failed, v.error)]
    else if v.pc.Unlocked? && v.run in runs
    then runs[v.run := runs[v.run].(finishedAt := Some(v.txn), status := v.status, error := v.error)]
    else runs
  }

  // ---------------------------------------------------------------------------------------------- edits

  ghost predicate CanEdit(s: State, a: Edit) {
    match a
    case SetSchedules(job, _) => forall i :: i in s.schedules && s.schedules[i].jobId == job ==> !RowHeld(s, i)
    case SetJobEnabled(job, _) => job in s.jobs && !JobRowHeld(s, job)
    case Create(i, job, _, _) =>
      && i !in s.schedules && job in s.jobs && !RowHeld(s, i)
      && forall k :: k in s.schedules ==> s.schedules[k].jobId != job
    case Toggle(i, _) => i in s.schedules && !RowHeld(s, i)
    case Update(i, _, _, _) => i in s.schedules && !RowHeld(s, i)
    case Delete(i) => i in s.schedules && !RowHeld(s, i)
  }

  ghost function EditSchedules(s: State, a: Edit): map<Id, Schedule>
    requires CanEdit(s, a)
  {
    match a
    case SetSchedules(job, enabled) =>
      map i | i in s.schedules ::
        if s.schedules[i].jobId == job then s.schedules[i].(enabled := enabled, nextRunAt := None) else s.schedules[i]
    case SetJobEnabled(_, _) => s.schedules
    case Create(i, job, cron, at) => s.schedules[i := Schedule(job, cron, at, true)]
    case Toggle(i, enabled) => s.schedules[i := s.schedules[i].(enabled := enabled, nextRunAt := None)]
    case Update(i, cron, at, enabledOr) =>
      s.schedules[i := s.schedules[i].(cron := cron, nextRunAt := at,
                                       enabled := enabledOr.GetOr(s.schedules[i].enabled))]
    case Delete(i) => map k | k in s.schedules && k != i :: s.schedules[k]
  }

  // ---------------------------------------------------------------------------------------------- steps

  ghost predicate Can(s: State, e: Step) {
    match e
    case Tick(to) => s.now <= to
    case Act(x, m) => CanMove(s, x, m)
    case Commit(x) => x in s.sessions && Committing(s.sessions[x])
    case TryLock(x) => At(s, x, Cleared)
    case Unlock(x) => At(s, x, FinishPending)
    case Close(x) => x in s.sessions
    case Recover =>
      forall x :: x in s.sessions && UpdatePending(s.sessions[x]) && s.sessions[x].run in s.runs ==>
                    !Recoverable(s.runs[s.sessions[x].run])
    case Admin(a) => CanEdit(s, a)
  }

  function Recovered(r: Run, now: Time): Run {
    if Recoverable(r)
    then r.(finishedAt := Some(now), status := Failed, error := Some(r.error.GetOr(Interrupted)))
    else r
  }

  ghost function DoAct(s: State, x: Id, m: Move): State
    requires CanMove(s, x, m)
  {
    s.(sessions := s.sessions[x := Moved(s, x, m)], usedRunIds := s.usedRunIds + Drawn(m))
  }

  function DoCommit(s: State, x: Id): State
    requires x in s.sessions
  {
    var v := s.sessions[x];
    s.(sessions := s.sessions[x := v.(pc := if Claims(v) then Claimed else Done)],
       schedules := CommitSchedules(s.schedules, v), runs := CommitRuns(s.runs, v))
  }

  function DoTryLock(hash: Hash, s: State, x: Id): State
    requires x in s.sessions
  {
    var v := s.sessions[x];
    if hash(v.job) in s.locks then s.(sessions := s.sessions[x := v.(pc := Done)])
    else s.(sessions := s.sessions[x := v.(pc := Locked, txn := if v.trigger.ByRunNow? then s.now else v.txn)],
            locks := s.locks[hash(v.job) := x])
  }

  function DoUnlock(hash: Hash, s: State, x: Id): State
    requires x in s.sessions
  {
    var v := s.sessions[x];
    s.(sessions := s.sessions[x := v.(pc := Unlocked)],
       locks := map k | k in s.locks && k != hash(v.job) :: s.locks[k])
  }

  function DoClose(s: State, x: Id): State {
    s.(sessions := map y | y in s.sessions && y != x :: s.sessions[y],
       locks := map k | k in s.locks && s.locks[k] != x :: s.locks[k])
  }

  /** The effect of a step. */
  ghost function Do(hash: Hash, s: State, e: Step): State
    requires Can(s, e)
  {
    match e
    case Tick(to) => s.(now := to)
    case Act(x, m) => DoAct(s, x, m)
    case Commit(x) => DoCommit(s, x)
    case TryLock(x) => DoTryLock(hash, s, x)
    case Unlock(x) => DoUnlock(hash, s, x)
    case Close(x) => DoClose(s, x)
    case Recover => s.(runs := map r | r in s.runs :: Recovered(s.runs[r], s.now))
    case Admin(a) =>
      s.(schedules := EditSchedules(s, a),
         jobs := if a.SetJobEnabled? then s.jobs[a.job := s.jobs[a.job].(enabled := a.enabled)] else s.jobs)
  }

  /** A state no connection has touched yet: any tables, old interrupted runs included. */
  ghost predicate Init(s: State) {
    && s.sessions == map[] && s.locks == map[] && s.runs.Keys <= s.usedRunIds
    && forall r :: r in s.runs ==> (s.runs[r].status.Running? <==> s.runs[r].finishedAt.None?)
  }

  /** `states` is a run of the machine that takes `steps`. */
  ghost predicate IsRun(hash: Hash, states: seq<State>, steps: seq<Step>) {
    && |states| == |steps| + 1
    && Init(states[0])
    && forall i :: 0 <= i < |steps| ==> Can(states[i], steps[i]) && states[i + 1] == Do(hash, states[i], steps[i])
  }
}
