/** Concrete runs of the job protocol that show where a stronger claim would be false. */
module SchedulerWitnesses {
  import opened Options
  import opened Scheduler

  /** `t` is reached from `s` by `n` steps. */
  ghost predicate Leads(hash: Hash, s: State, n: nat, t: State)
    decreases n
  {
    if n == 0 then s == t
    else exists u, e :: Leads(hash, s, n - 1, u) && Can(u, e) && Do(hash, u, e) == t
  }

  // One job, nothing else, at time 0.
  function Start(): State {
    State(0, map[0 := Job(MvRefresh, true)], map[], map[], {}, map[], map[])
  }

  /** The run-now thread for job 0 at `pc`, with run `r`. */
  function Thread(pc: Pc, r: Id, status: Status): Session {
    Session(ByRunNow, pc, 0, 0, 0, 0, 0, 0, r, status, None)
  }

  function With(s: State, x: Id, v: Session): State {
    s.(sessions := s.sessions[x := v])
  }

  /** What a stretch of a thread's life leaves alone. */
  predicate Framed(s: State, t: State, x: Id) {
    t.jobs == s.jobs && t.now == s.now && x in t.sessions && t.sessions == s.sessions[x := t.sessions[x]]
  }

  lemma MoveOn(hash: Hash, s0: State, n: nat, s: State, x: Id, m: Move) returns (t: State)
    requires Leads(hash, s0, n, s) && CanMove(s, x, m)
    ensures Leads(hash, s0, n + 1, t) && t == With(s, x, Moved(s, x, m)).(usedRunIds := s.usedRunIds + Drawn(m))
  {
    t := DoAct(s, x, m);
    assert Can(s, Act(x, m)) && Do(hash, s, Act(x, m)) == t;
  }

  lemma Locks(hash: Hash, s0: State, n: nat, s: State, x: Id) returns (t: State)
    requires Leads(hash, s0, n, s) && s.now == 0 && x !in s.sessions && 0 in s.jobs && s.locks == map[]
    ensures Leads(hash, s0, n + 2, t) && Framed(s, t, x) && t.sessions[x] == Thread(Locked, 0, Running)
    ensures t.runs == s.runs && t.usedRunIds == s.usedRunIds && t.locks == map[hash(0) := x]
  {
    var u := With(s, x, Thread(Cleared, 0, Running));
    var e := Act(x, OpenRunNow(0));
    assert Can(s, e) && Do(hash, s, e) == u;
    assert Leads(hash, s0, n + 1, u);
    t := With(s, x, Thread(Locked, 0, Running)).(locks := map[hash(0) := x]);
    assert u.sessions[x := Thread(Locked, 0, Running)] == t.sessions;
    assert Can(u, TryLock(x)) && Do(hash, u, TryLock(x)) == t;
  }

  lemma Claims(hash: Hash, s0: State, n: nat, s: State, x: Id, r: Id) returns (t: State)
    requires Leads(hash, s0, n, s) && x in s.sessions && s.sessions[x] == Thread(Locked, 0, Running)
    requires r !in s.usedRunIds
    ensures Leads(hash, s0, n + 2, t) && Framed(s, t, x) && t.sessions[x] == Thread(Claimed, r, Running)
    ensures t.runs == s.runs[r := Run(0, ByRunNow, 0, None, Running, None)]
    ensures t.usedRunIds == s.usedRunIds + {r} && t.locks == s.locks
  {
    var u := With(s, x, Thread(Inserted, r, Running)).(usedRunIds := s.usedRunIds + {r});
    var e := Act(x, InsertRun(r));
    assert Can(s, e) && Do(hash, s, e) == u;
    assert Leads(hash, s0, n + 1, u);
    t := Commits(hash, s0, n + 1, u, x, r);
  }

  lemma Commits(hash: Hash, s0: State, n: nat, s: State, x: Id, r: Id) returns (t: State)
    requires Leads(hash, s0, n, s) && x in s.sessions && s.sessions[x] == Thread(Inserted, r, Running)
    ensures Leads(hash, s0, n + 1, t)
    ensures t == With(s, x, Thread(Claimed, r, Running)).(runs := s.runs[r := Run(0, ByRunNow, 0, None, Running, None)])
  {
    t := DoCommit(s, x);
    assert Can(s, Commit(x)) && Do(hash, s, Commit(x)) == t;
  }

  lemma Executes(hash: Hash, s0: State, n: nat, s: State, x: Id, r: Id) returns (t: State)
    requires Leads(hash, s0, n, s) && x in s.sessions && s.sessions[x] == Thread(Claimed, r, Running)
    ensures Leads(hash, s0, n + 2, t) && Framed(s, t, x) && t.sessions[x] == Thread(Executed, r, Success)
    ensures t.runs == s.runs && t.usedRunIds == s.usedRunIds && t.locks == s.locks
  {
    t := MoveOn(hash, s0, n, s, x, Execute);
    t := MoveOn(hash, s0, n + 1, t, x, Finish(Success, None));
  }

  lemma Unlocks(hash: Hash, s0: State, n: nat, s: State, x: Id, r: Id) returns (t: State)
    requires Leads(hash, s0, n, s) && x in s.sessions && s.sessions[x] == Thread(FinishPending, r, Success)
    requires s.locks == map[hash(0) := x]
    ensures Leads(hash, s0, n + 1, t) && Framed(s, t, x) && t.sessions[x] == Thread(Unlocked, r, Success)
    ensures t.runs == s.runs && t.usedRunIds == s.usedRunIds && t.locks == map[]
  {
    t := With(s, x, Thread(Unlocked, r, Success)).(locks := map[]);
    assert forall k :: k in s.locks ==> k == hash(0);
    assert Can(s, Unlock(x)) && Do(hash, s, Unlock(x)) == t;
  }

  lemma Recovers(hash: Hash, s0: State, n: nat, s: State, x: Id, r: Id) returns (t: State)
    requires Leads(hash, s0, n, s) && s.sessions == map[x := Thread(Claimed, r, Running)] && r in s.runs
    requires s.runs[r].status.Running? && s.runs[r].finishedAt.None?
    ensures Leads(hash, s0, n + 1, t) && Framed(s, t, x) && t.sessions == s.sessions && t.locks == s.locks
    ensures r in t.runs && t.runs[r].status.Failed?
  {
    t := Do(hash, s, Recover);
  }

  lemma Finishes(hash: Hash, s0: State, n: nat, s: State, x: Id, r: Id) returns (t: State)
    requires Leads(hash, s0, n, s) && x in s.sessions && s.sessions[x] == Thread(Unlocked, r, Success) && r in s.runs
    ensures Leads(hash, s0, n + 1, t) && r in t.runs && t.runs[r].status.Success?
  {
    t := Do(hash, s, Commit(x));
  }

  predicate Ready(s: State) {
    s.now == 0 && 0 in s.jobs && s.locks == map[]
  }

  lemma Starts(hash: Hash, s0: State, n: nat, s: State, x: Id, r: Id) returns (t: State)
    requires Leads(hash, s0, n, s) && Ready(s) && x !in s.sessions && r !in s.usedRunIds
    ensures Leads(hash, s0, n + 4, t) && Framed(s, t, x) && t.sessions[x] == Thread(Claimed, r, Running)
    ensures t.runs == s.runs[r := Run(0, ByRunNow, 0, None, Running, None)]
    ensures t.usedRunIds == s.usedRunIds + {r} && t.locks == map[hash(0) := x]
  {
    t := Locks(hash, s0, n, s, x);
    t := Claims(hash, s0, n + 2, t, x, r);
  }

  lemma Stops(hash: Hash, s0: State, n: nat, s: State, x: Id, r: Id) returns (t: State)
    requires Leads(hash, s0, n, s) && x in s.sessions && s.sessions[x] == Thread(Claimed, r, Running)
    requires s.now == 0 && s.locks == map[hash(0) := x]
    ensures Leads(hash, s0, n + 4, t) && Framed(s, t, x) && t.sessions[x] == Thread(Unlocked, r, Success)
    ensures t.runs == s.runs && t.usedRunIds == s.usedRunIds && t.locks == map[]
  {
    t := Executes(hash, s0, n, s, x, r);
    t := MoveOn(hash, s0, n + 2, t, x, UpdateRun);
    t := Unlocks(hash, s0, n + 3, t, x, r);
  }

  lemma RunsTwice(hash: Hash, s0: State, n: nat, s: State) returns (t: State)
    requires Leads(hash, s0, n, s) && Ready(s) && s.sessions == map[] && s.usedRunIds == {}
    ensures Leads(hash, s0, n + 12, t)
    ensures var run := Run(0, ByRunNow, 0, None, Running, None);
            t.runs == s.runs[0 := run][1 := run]
  {
    t := Starts(hash, s0, n, s, 0, 0);
    t := Stops(hash, s0, n + 4, t, 0, 0);
    t := Starts(hash, s0, n + 8, t, 1, 1);
  }

  /** The lock is released before the final commit becomes visible, so two rows of one job can both read "running"
      although its executions never overlap: exclusion is a statement about sessions, not about visible rows.
      `SchedulerRows.ClaimLeavesTwoIff` says when. */
  lemma TwoRunningRowsCanBeVisible(hash: Hash) returns (n: nat, s: State)
    ensures Init(Start()) && Leads(hash, Start(), n, s)
    ensures 0 in s.runs && 1 in s.runs && s.runs[0].jobId == s.runs[1].jobId
    ensures s.runs[0].status.Running? && s.runs[1].status.Running?
  {
    s := RunsTwice(hash, Start(), 0, Start());
    n := 12;
  }

  /** The other cause: a crash leaves a running row behind, its lock is free, and the next claim adds a second one. */
  lemma OrphanAndClaimAreVisible(hash: Hash) returns (n: nat, s: State)
    ensures Init(Start()) && Leads(hash, Start(), n, s)
    ensures 0 in s.runs && 1 in s.runs && s.runs[0].jobId == s.runs[1].jobId
    ensures s.runs[0].status.Running? && s.runs[1].status.Running? && 0 !in s.sessions
  {
    s := Abandoned(hash);
    s := Starts(hash, Start(), 5, s, 1, 1);
    n := 9;
  }

  lemma Abandoned(hash: Hash) returns (s: State)
    ensures Leads(hash, Start(), 5, s) && Ready(s) && s.sessions == map[] && s.usedRunIds == {0}
    ensures s.runs == map[0 := Run(0, ByRunNow, 0, None, Running, None)]
  {
    var claimed := Starts(hash, Start(), 0, Start(), 0, 0);
    s := Crashes(hash, Start(), 4, claimed, 0, 0);
  }

  lemma Crashes(hash: Hash, s0: State, n: nat, s: State, x: Id, r: Id) returns (t: State)
    requires Leads(hash, s0, n, s) && s.sessions == map[x := Thread(Claimed, r, Running)]
    requires s.locks == map[hash(0) := x]
    ensures Leads(hash, s0, n + 1, t) && t == s.(sessions := map[], locks := map[])
  {
    t := DoClose(s, x);
    assert Can(s, Close(x)) && Do(hash, s, Close(x)) == t;
    assert t.sessions == map[] && t.locks == map[];
  }

  /** A recovery while a job executes: the row it failed is later overwritten, and a terminal row changes from failed to
      success. One worker process is enough: recovery runs in the scheduler thread, while the web server's threads may
      already have claimed a run-now. `SchedulerRows.TerminalRowsChangeIff` says when. */
  lemma RecoveryDuringExecutionFlipsRow(hash: Hash) returns (m: nat, s: State, n: nat, t: State)
    ensures Init(Start()) && Leads(hash, Start(), m, s) && Leads(hash, s, n, t)
    ensures 0 in s.runs && s.runs[0].status.Failed? && 0 in t.runs && t.runs[0].status.Success?
  {
    s := Starts(hash, Start(), 0, Start(), 0, 0);
    s := Recovers(hash, Start(), 4, s, 0, 0);
    t := Resumes(hash, s);
    m, n := 5, 5;
  }

  lemma Resumes(hash: Hash, s: State) returns (t: State)
    requires s.sessions == map[0 := Thread(Claimed, 0, Running)] && s.locks == map[hash(0) := 0] && s.now == 0
    requires 0 in s.runs
    ensures Leads(hash, s, 5, t) && 0 in t.runs && t.runs[0].status.Success?
  {
    t := Stops(hash, s, 0, s, 0, 0);
    t := Finishes(hash, s, 4, t, 0, 0);
  }
}
