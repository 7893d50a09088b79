/** Lookups of one variable that overlap, in worker/app/runtime_config.py (threads) and web/app/lib/runtime-env.ts
    (awaits): each reads the environment, asks the vault, and acts on the answer with the value it had read. */
module RuntimeConfigOverlap {
  import opened Options
  import opened RuntimeConfig

  type Id = nat

  /** `waiting` holds, for each lookup that waits for the vault, the value it read. */
  datatype Shared = Shared(cell: Cell, waiting: map<Id, Option<string>>)

  datatype Step = Begin(x: Id) | Finish(x: Id, reply: Reply)

  predicate Can(s: Shared, e: Step) {
    if e.Begin? then e.x !in s.waiting else e.x in s.waiting
  }

  /** What a variable's lookups depend on besides each other. */
  datatype Setting = Setting(present: Present, unset: string, required: bool)

  function Finished(g: Setting, s: Shared, e: Step): (Cell, Answer)
    requires e.Finish? && Can(s, e)
  {
    FinishLookup(g.present, g.unset, g.required, s.cell, s.waiting[e.x], e.reply)
  }

  function Do(g: Setting, s: Shared, e: Step): Shared
    requires Can(s, e)
  {
    match e
    case Begin(x) => s.(waiting := s.waiting[x := s.cell.env])
    case Finish(x, _) => Shared(Finished(g, s, e).0, map y | y in s.waiting && y != x :: s.waiting[y])
  }

  ghost predicate IsRun(g: Setting, env: Option<string>, states: seq<Shared>, steps: seq<Step>) {
    && !g.present("")
    && |states| == |steps| + 1 && states[0] == Shared(Cell(env, None), map[])
    && forall i :: 0 <= i < |steps| ==> Can(states[i], steps[i]) && states[i + 1] == Do(g, states[i], steps[i])
  }

  // ------------------------------------------------------------------------------- when overlapping does not matter

  /** The answer makes no use of the value that was read, or that value still stands. */
  predicate UpToDate(g: Setting, s: Shared, e: Step) {
    e.Finish? && e.x in s.waiting ==>
      || Usable(g.present, g.unset, e.reply)
      || (e.reply.Fault? && s.cell.good.Some? && s.cell.good.value != "")
      || IfPresent(g.present, s.waiting[e.x]) == IfPresent(g.present, s.cell.env)
  }

  /** A lookup ends as if it had happened all at once, at the time of the vault's answer, exactly then. */
  lemma AtomicIffUpToDate(g: Setting, s: Shared, e: Step)
    requires !g.present("") && e.Finish? && Can(s, e)
    ensures Finished(g, s, e) == Lookup(g.present, g.unset, g.required, s.cell, e.reply) <==> UpToDate(g, s, e)
  {
  }

  /** The vault's answers in the order in which they came. */
  function Replies(steps: seq<Step>): seq<Reply> {
    if steps == [] then []
    else
      var e := steps[|steps| - 1];
      Replies(steps[..|steps| - 1]) + if e.Finish? then [e.reply] else []
  }

  ghost predicate AlwaysUpToDate(g: Setting, states: seq<Shared>, steps: seq<Step>)
    requires |steps| < |states|
  {
    forall i :: 0 <= i < |steps| ==> UpToDate(g, states[i], steps[i])
  }

  /** Then the lookups refine the history of the answers, in the order of the answers. */
  lemma {:induction false} StateIsHistory(g: Setting, env: Option<string>, states: seq<Shared>, steps: seq<Step>,
                                          n: nat)
    requires IsRun(g, env, states, steps) && AlwaysUpToDate(g, states, steps) && n <= |steps|
    ensures states[n].cell == State(g.present, g.unset, g.required, env, Replies(steps[..n]))
  {
    if n > 0 {
      StateIsHistory(g, env, states, steps, n - 1);
      assert steps[..n][..n - 1] == steps[..n - 1];
      var s, e := states[n - 1], steps[n - 1];
      assert Can(s, e) && states[n] == Do(g, s, e) && UpToDate(g, s, e);
      var before := Replies(steps[..n - 1]);
      if e.Finish? {
        AtomicIffUpToDate(g, s, e);
        assert (before + [e.reply])[..|before|] == before;
      } else {
        assert before + [] == before;
      }
    }
  }

  /** Each answer is then the latest vault value there ever was, else the initial environment value, else the default or
      the error. */
  lemma AnswersRefineHistory(g: Setting, env: Option<string>, states: seq<Shared>, steps: seq<Step>, n: nat)
    requires IsRun(g, env, states, steps) && AlwaysUpToDate(g, states, steps) && n < |steps| && steps[n].Finish?
    ensures Can(states[n], steps[n])
    ensures Finished(g, states[n], steps[n]).1
            == match Known(g.present, g.unset, env, Replies(steps[..n]) + [steps[n].reply])
               case Some(v) => Value(v)
               case None => if steps[n].reply.Fault? && g.required then Raise else Default
  {
    StateIsHistory(g, env, states, steps, n);
    var h := Replies(steps[..n]);
    assert (h + [steps[n].reply])[..|h|] == h;
    assert Can(states[n], steps[n]) && UpToDate(g, states[n], steps[n]);
    AtomicIffUpToDate(g, states[n], steps[n]);
    LookupRefinesHistory(g.present, g.unset, g.required, env, h + [steps[n].reply]);
  }

  /** No lookup begins while another waits. */
  ghost predicate NoOverlap(states: seq<Shared>, steps: seq<Step>)
    requires |steps| < |states|
  {
    forall i :: 0 <= i < |steps| && steps[i].Begin? ==> states[i].waiting == map[]
  }

  predicate ReadsStand(s: Shared) {
    && (forall x, y :: x in s.waiting && y in s.waiting ==> x == y)
    && forall x :: x in s.waiting ==> s.waiting[x] == s.cell.env
  }

  lemma {:induction false} NoOverlapReadsStand(g: Setting, env: Option<string>, states: seq<Shared>, steps: seq<Step>,
                                               n: nat)
    requires IsRun(g, env, states, steps) && NoOverlap(states, steps) && n <= |steps|
    ensures ReadsStand(states[n])
  {
    if n > 0 {
      NoOverlapReadsStand(g, env, states, steps, n - 1);
      assert Can(states[n - 1], steps[n - 1]) && states[n] == Do(g, states[n - 1], steps[n - 1]);
    }
  }

  /** Lookups that do not overlap are always up to date. */
  lemma NoOverlapIsUpToDate(g: Setting, env: Option<string>, states: seq<Shared>, steps: seq<Step>)
    requires IsRun(g, env, states, steps) && NoOverlap(states, steps)
    ensures AlwaysUpToDate(g, states, steps)
  {
    forall i | 0 <= i < |steps| ensures UpToDate(g, states[i], steps[i]) {
      NoOverlapReadsStand(g, env, states, steps, i);
    }
  }

  // ------------------------------------------------------------------------------- when a value is lost

  /** A lookup whose request fails now would still give a value. */
  predicate Keeps(g: Setting, s: Shared) {
    Stale(g.present, s.cell).Some?
  }

  predicate AnswersValue(g: Setting, s: Shared, e: Step) {
    e.Finish? && e.x in s.waiting && Finished(g, s, e).1.Value?
  }

  /** The secret is reported unset to a lookup that had read no value: it blanks the variable and forgets the value
      kept. */
  predicate Wipes(g: Setting, s: Shared, e: Step) {
    e.Finish? && e.x in s.waiting && Absent(g.present, g.unset, e.reply)
    && IfPresent(g.present, s.waiting[e.x]).None?
  }

  lemma KeepsIff(g: Setting, s: Shared, e: Step)
    requires !g.present("") && Can(s, e)
    ensures Keeps(g, Do(g, s, e)) <==> AnswersValue(g, s, e) || (Keeps(g, s) && !Wipes(g, s, e))
  {
  }

  ghost predicate NoValue(g: Setting, states: seq<Shared>, steps: seq<Step>, from: nat, to: nat)
    requires to <= |steps| < |states|
  {
    forall i :: from <= i < to ==> !AnswersValue(g, states[i], steps[i])
  }

  /** Step `k` wipes the value, and no lookup before step `n` gives one back. */
  ghost predicate WipedAt(g: Setting, states: seq<Shared>, steps: seq<Step>, k: nat, n: nat)
    requires n <= |steps| < |states|
  {
    k < n && Wipes(g, states[k], steps[k]) && NoValue(g, states, steps, k + 1, n)
  }

  ghost predicate Wiped(g: Setting, states: seq<Shared>, steps: seq<Step>, m: nat, n: nat)
    requires n <= |steps| < |states|
  {
    exists k :: m <= k < n && WipedAt(g, states, steps, k, n)
  }

  lemma WipedStep(g: Setting, states: seq<Shared>, steps: seq<Step>, m: nat, n: nat)
    requires m <= n < |steps| < |states|
    ensures Wiped(g, states, steps, m, n + 1)
            <==> || Wipes(g, states[n], steps[n])
                 || (Wiped(g, states, steps, m, n) && !AnswersValue(g, states[n], steps[n]))
  {
    if Wipes(g, states[n], steps[n]) {
      assert WipedAt(g, states, steps, n, n + 1);
    } else if Wiped(g, states, steps, m, n) && !AnswersValue(g, states[n], steps[n]) {
      var k :| m <= k < n && WipedAt(g, states, steps, k, n);
      assert WipedAt(g, states, steps, k, n + 1);
    }
    if Wiped(g, states, steps, m, n + 1) && !Wipes(g, states[n], steps[n]) {
      var k :| m <= k < n + 1 && WipedAt(g, states, steps, k, n + 1);
      assert k < n && !AnswersValue(g, states[n], steps[n]) && WipedAt(g, states, steps, k, n);
    }
  }

  /** A value that was there is lost exactly when a lookup that had read none was told the secret is unset, and no
      lookup has given a value since. */
  lemma {:induction false} ValueLostIff(g: Setting, env: Option<string>, states: seq<Shared>, steps: seq<Step>, m: nat,
                                        n: nat)
    requires IsRun(g, env, states, steps) && m <= n <= |steps| && Keeps(g, states[m])
    ensures !Keeps(g, states[n]) <==> Wiped(g, states, steps, m, n)
    decreases n
  {
    if m < n {
      var s, e := states[n - 1], steps[n - 1];
      assert Can(s, e) && states[n] == Do(g, s, e);
      ValueLostIff(g, env, states, steps, m, n - 1);
      KeepsIff(g, s, e);
      WipedStep(g, states, steps, m, n - 1);
    }
  }

  /** A lookup that gives a value leaves it there; one that begins where none is left, and then fails, gives none. */
  lemma LossIsSeen(g: Setting, s: Shared, e: Step)
    requires !g.present("") && Can(s, e)
    ensures AnswersValue(g, s, e) ==> Keeps(g, Do(g, s, e))
    ensures e.Finish? && e.reply.Fault? && s.waiting[e.x] == s.cell.env ==> (AnswersValue(g, s, e) <==> Keeps(g, s))
  {
    KeepsIff(g, s, e);
  }

  // ------------------------------------------------------------------------------- when the two stores disagree

  predicate Agrees(s: Shared) {
    s.cell.good.Some? ==> s.cell.good == s.cell.env
  }

  /** A lookup keeps the value it had read although the variable has another by now. */
  predicate StoresOutdated(g: Setting, s: Shared, e: Step) {
    && e.Finish? && e.x in s.waiting && !Usable(g.present, g.unset, e.reply)
    && IfPresent(g.present, s.waiting[e.x]).Some? && s.waiting[e.x] != s.cell.env
    && (e.reply.Fault? ==> s.cell.good.None? || s.cell.good.value == "")
  }

  lemma AgreesIff(g: Setting, s: Shared, e: Step)
    requires !g.present("") && Can(s, e) && Agrees(s)
    ensures Agrees(Do(g, s, e)) <==> !StoresOutdated(g, s, e)
  {
  }

  ghost predicate NeverOutdated(g: Setting, states: seq<Shared>, steps: seq<Step>, n: nat)
    requires n <= |steps| < |states|
  {
    forall i :: 0 <= i < n ==> !StoresOutdated(g, states[i], steps[i])
  }

  ghost predicate AgreesUpTo(states: seq<Shared>, n: nat)
    requires n < |states|
  {
    forall i :: 0 <= i <= n ==> Agrees(states[i])
  }

  /** The last-known-good entry agrees with the environment in every state up to some point exactly when no lookup up to
      there stores an outdated value. */
  lemma {:induction false} StoresAgreeIff(g: Setting, env: Option<string>, states: seq<Shared>, steps: seq<Step>,
                                          n: nat)
    requires IsRun(g, env, states, steps) && n <= |steps|
    ensures AgreesUpTo(states, n) <==> NeverOutdated(g, states, steps, n)
  {
    if n > 0 {
      StoresAgreeIff(g, env, states, steps, n - 1);
      var s, e := states[n - 1], steps[n - 1];
      assert Can(s, e) && states[n] == Do(g, s, e);
      if Agrees(s) {
        AgreesIff(g, s, e);
      }
      assert AgreesUpTo(states, n) <==> AgreesUpTo(states, n - 1) && Agrees(states[n]);
      assert NeverOutdated(g, states, steps, n)
        <==> NeverOutdated(g, states, steps, n - 1) && !StoresOutdated(g, states[n - 1], steps[n - 1]);
    }
  }

  // ------------------------------------------------------------------------------- two runs

  /** A required variable without an environment value: a lookup gives `v`, an older one is told the secret is unset,
      and a third, whose request fails, raises. */
  lemma ReturnedValueIsLost(g: Setting, v: string) returns (states: seq<Shared>, steps: seq<Step>)
    requires g.required && !g.present("") && g.present(v) && v != g.unset
    ensures IsRun(g, None, states, steps) && |steps| == 6
    ensures steps[2].Finish? && Can(states[2], steps[2]) && Finished(g, states[2], steps[2]).1 == Value(v)
    ensures steps[5] == Finish(2, Fault) && Can(states[5], steps[5]) && Finished(g, states[5], steps[5]).1 == Raise
  {
    steps := [Begin(0), Begin(1), Finish(1, Secret(v)), Finish(0, NotFound), Begin(2), Finish(2, Fault)];
    var s0 := Shared(Cell(None, None), map[]);
    var s1 := Shared(Cell(None, None), map[0 := None]);
    var s2 := Shared(Cell(None, None), map[0 := None, 1 := None]);
    var s3 := Shared(Cell(Some(v), Some(v)), map[0 := None]);
    var s4 := Shared(Cell(Some(""), None), map[]);
    var s5 := Shared(Cell(Some(""), None), map[2 := Some("")]);
    assert Do(g, s0, steps[0]) == s1 && Do(g, s1, steps[1]) == s2 && Do(g, s2, steps[2]) == s3;
    assert Do(g, s3, steps[3]) == s4 && Do(g, s4, steps[4]) == s5;
    states := [s0, s1, s2, s3, s4, s5, Do(g, s5, steps[5])];
  }

  /** The environment has `v1`; a lookup stores `v2`; an older one, told the secret is unset, keeps `v1` beside it; a
      third, whose request fails, gives `v1` although `v2` is the latest vault value. */
  lemma OutdatedValueIsServed(g: Setting, v1: string, v2: string) returns (states: seq<Shared>, steps: seq<Step>)
    requires !g.present("") && g.present(v1) && g.present(v2) && v1 != v2 && v2 != g.unset
    ensures IsRun(g, Some(v1), states, steps) && |steps| == 6
    ensures steps[2].Finish? && Can(states[2], steps[2]) && Finished(g, states[2], steps[2]).1 == Value(v2)
    ensures states[4].cell == Cell(Some(v2), Some(v1)) && !Agrees(states[4])
    ensures steps[5] == Finish(2, Fault) && Can(states[5], steps[5]) && Finished(g, states[5], steps[5]).1 == Value(v1)
  {
    steps := [Begin(0), Begin(1), Finish(1, Secret(v2)), Finish(0, NotFound), Begin(2), Finish(2, Fault)];
    var first := Cell(Some(v1), None);
    var s0 := Shared(first, map[]);
    var s1 := Shared(first, map[0 := Some(v1)]);
    var s2 := Shared(first, map[0 := Some(v1), 1 := Some(v1)]);
    var s3 := Shared(Cell(Some(v2), Some(v2)), map[0 := Some(v1)]);
    var s4 := Shared(Cell(Some(v2), Some(v1)), map[]);
    var s5 := Shared(Cell(Some(v2), Some(v1)), map[2 := Some(v2)]);
    assert Do(g, s0, steps[0]) == s1 && Do(g, s1, steps[1]) == s2 && Do(g, s2, steps[2]) == s3;
    assert Do(g, s3, steps[3]) == s4 && Do(g, s4, steps[4]) == s5;
    states := [s0, s1, s2, s3, s4, s5, Do(g, s5, steps[5])];
  }
}
