/** `get_current_license` of worker/app/license.py: any number of threads share one cached summary, keyed by the active
    row. A thread reads the active row, looks into the cache, and on a miss computes a summary and stores it; other
    threads and the administrators' uploads and activations come in between. Stored artifacts are immutable. */
module LicenseCache {
  import opened Options
  import opened LicenseArtifact
  import opened LicenseInspection

  type ArtifactId = nat
  type Thread = nat

  datatype Artifact = Artifact(sha256: string, text: string)
  datatype ActiveRow = ActiveRow(artifactId: Option<ArtifactId>, updatedAt: Time)
  type Artifacts = map<ArtifactId, Artifact>

  /** The cache key: the active row's artifact, that artifact's hash, and the row's time to the millisecond. */
  datatype Key = NoRow | Row(artifactId: Option<ArtifactId>, sha256: Option<string>, updatedAt: Time)

  function KeyFor(active: Option<ActiveRow>, artifacts: Artifacts): Key {
    match active
    case None => NoRow
    case Some(row) =>
      Row(row.artifactId,
          if row.artifactId.Some? && row.artifactId.value in artifacts then Some(artifacts[row.artifactId.value].sha256)
          else None,
          row.updatedAt / 1000 * 1000)
  }

  /** What a miss computes for `key` at the time `now`. */
  function Recompute(key: Key, artifacts: Artifacts, trust: Trust, now: Time): Summary {
    if key.NoRow? || key.artifactId.None? then MissingSummary()
    else if key.artifactId.value !in artifacts then Fallback(RowMissing, None)
    else Summarize(artifacts[key.artifactId.value].text, trust, now)
  }

  /** How a miss computes; the machine itself does not care. */
  type Recomputer = (Key, Artifacts, Time) -> Summary

  function Recomputation(trust: Trust): Recomputer {
    (key, artifacts, now) => Recompute(key, artifacts, trust, now)
  }

  const SECOND: int := 1000000

  function Lifetime(ttlSeconds: int): int {
    (if ttlSeconds < 1 then 1 else ttlSeconds) * SECOND
  }

  /** A cached summary; `computedAt` and `lifetime` are history. */
  datatype Entry = Entry(key: Key, expiresAt: Time, summary: Summary, computedAt: Time, lifetime: int)

  /** A summary handed out for a read that looked into the cache at the time `at`. */
  datatype Answer = Answer(key: Key, at: Time, summary: Summary, computedAt: Time, lifetime: int)

  datatype Phase =
    | Fetched(key: Key)
    | Missed(key: Key, now: Time, lifetime: int)
    | Computed(key: Key, now: Time, lifetime: int, summary: Summary, computedAt: Time)
    | Answered(answer: Answer)

  datatype State = State(clock: Time, active: Option<ActiveRow>, artifacts: Artifacts, cache: Option<Entry>,
                         threads: map<Thread, Phase>)

  datatype Step =
    | Tick(to: Time)
    | Upload(id: ArtifactId, artifact: Artifact)
    | Activate(row: ActiveRow)
    | Deactivate
    | ClearCache
    | Fetch(x: Thread)
    | Check(x: Thread, ttlSeconds: int)
    | Compute(x: Thread)
    | Store(x: Thread)

  predicate Can(s: State, e: Step) {
    match e
    case Tick(to) => s.clock <= to
    case Upload(id, _) => id !in s.artifacts
    case Activate(row) => row.artifactId.Some? ==> row.artifactId.value in s.artifacts
    case Check(x, _) => x in s.threads && s.threads[x].Fetched?
    case Compute(x) => x in s.threads && s.threads[x].Missed?
    case Store(x) => x in s.threads && s.threads[x].Computed?
    case _ => true
  }

  predicate Hit(cache: Option<Entry>, key: Key, now: Time) {
    cache.Some? && cache.value.key == key && now < cache.value.expiresAt
  }

  function AtCheck(cache: Option<Entry>, key: Key, now: Time, lifetime: int): Phase {
    if Hit(cache, key, now)
    then Answered(Answer(key, now, cache.value.summary, cache.value.computedAt, cache.value.lifetime))
    else Missed(key, now, lifetime)
  }

  function AtCompute(p: Phase, artifacts: Artifacts, recompute: Recomputer, now: Time): (r: Phase)
    requires p.Missed?
    ensures r.Computed?
  {
    Computed(p.key, p.now, p.lifetime, recompute(p.key, artifacts, now), now)
  }

  function Stored(p: Phase): Entry
    requires p.Computed?
  {
    Entry(p.key, p.now + p.lifetime, p.summary, p.computedAt, p.lifetime)
  }

  function Do(s: State, e: Step, recompute: Recomputer): State
    requires Can(s, e)
  {
    match e
    case Tick(to) => s.(clock := to)
    case Upload(id, artifact) => s.(artifacts := s.artifacts[id := artifact])
    case Activate(row) => s.(active := Some(row))
    case Deactivate => s.(active := None)
    case ClearCache => s.(cache := None)
    case Fetch(x) => s.(threads := s.threads[x := Fetched(KeyFor(s.active, s.artifacts))])
    case Check(x, ttl) =>
      s.(threads := s.threads[x := AtCheck(s.cache, s.threads[x].key, s.clock, Lifetime(ttl))])
    case Compute(x) =>
      s.(threads := s.threads[x := AtCompute(s.threads[x], s.artifacts, recompute, s.clock)])
    case Store(x) =>
      var p := s.threads[x];
      s.(cache := Some(Stored(p)),
         threads := s.threads[x := Answered(Answer(p.key, p.now, p.summary, p.computedAt, p.lifetime))])
  }

  ghost predicate IsRun(states: seq<State>, steps: seq<Step>, recompute: Recomputer) {
    && |states| == |steps| + 1
    && states[0].cache == None && states[0].threads == map[] && RowOk(states[0])
    && forall i :: 0 <= i < |steps| ==> Can(states[i], steps[i]) && states[i + 1] == Do(states[i], steps[i], recompute)
  }

  // ------------------------------------------------------------------------------- the invariant

  predicate RowOk(s: State) {
    s.active.Some? && s.active.value.artifactId.Some? ==> s.active.value.artifactId.value in s.artifacts
  }

  predicate KeyOk(key: Key, artifacts: Artifacts) {
    key.Row? && key.artifactId.Some? ==>
      key.artifactId.value in artifacts && key.sha256 == Some(artifacts[key.artifactId.value].sha256)
  }

  predicate SummaryOk(key: Key, summary: Summary, at: Time, artifacts: Artifacts, recompute: Recomputer) {
    KeyOk(key, artifacts) && summary == recompute(key, artifacts, at)
  }

  predicate AnswerOk(a: Answer, s: State, recompute: Recomputer) {
    && SummaryOk(a.key, a.summary, a.computedAt, s.artifacts, recompute)
    && a.at < a.computedAt + a.lifetime && a.at <= s.clock && a.computedAt <= s.clock
  }

  predicate PhaseOk(p: Phase, s: State, recompute: Recomputer) {
    match p
    case Fetched(key) => KeyOk(key, s.artifacts)
    case Missed(key, now, lifetime) => KeyOk(key, s.artifacts) && now <= s.clock && 0 < lifetime
    case Computed(key, now, lifetime, summary, computedAt) =>
      SummaryOk(key, summary, computedAt, s.artifacts, recompute) && now <= computedAt <= s.clock && 0 < lifetime
    case Answered(a) => AnswerOk(a, s, recompute)
  }

  predicate EntryOk(e: Entry, s: State, recompute: Recomputer) {
    SummaryOk(e.key, e.summary, e.computedAt, s.artifacts, recompute) && e.expiresAt <= e.computedAt + e.lifetime
    && e.computedAt <= s.clock
  }

  ghost predicate Inv(s: State, recompute: Recomputer) {
    && RowOk(s)
    && (s.cache.Some? ==> EntryOk(s.cache.value, s, recompute))
    && forall x :: x in s.threads ==> PhaseOk(s.threads[x], s, recompute)
  }

  ghost predicate Grows(a: Artifacts, b: Artifacts) {
    forall id :: id in a ==> id in b && b[id] == a[id]
  }

  /** New artifacts change nothing about a key that was read before. */
  ghost predicate Stable(recompute: Recomputer) {
    forall key, a, b, at: Time ::
      KeyOk(key, a) && Grows(a, b) ==> recompute(key, b, at) == recompute(key, a, at)
  }

  lemma RecomputeGrows(key: Key, a: Artifacts, b: Artifacts, trust: Trust, at: Time)
    requires KeyOk(key, a) && Grows(a, b)
    ensures Recompute(key, b, trust, at) == Recompute(key, a, trust, at)
  {
  }

  lemma RecomputationIsStable(trust: Trust)
    ensures Stable(Recomputation(trust))
  {
    var recompute := Recomputation(trust);
    forall key, a, b, at: Time | KeyOk(key, a) && Grows(a, b) ensures recompute(key, b, at) == recompute(key, a, at) {
      RecomputeGrows(key, a, b, trust, at);
    }
  }

  lemma StepKeepsInv(s: State, e: Step, recompute: Recomputer)
    requires Stable(recompute) && Inv(s, recompute) && Can(s, e)
    ensures Inv(Do(s, e, recompute), recompute)
  {
    var t := Do(s, e, recompute);
    assert Grows(s.artifacts, t.artifacts);
    forall x | x in t.threads ensures PhaseOk(t.threads[x], t, recompute) {
      assert x in s.threads ==> PhaseOk(s.threads[x], s, recompute);
    }
  }

  lemma {:induction false} InvAlways(states: seq<State>, steps: seq<Step>, recompute: Recomputer, n: nat)
    requires Stable(recompute) && IsRun(states, steps, recompute) && n <= |steps|
    ensures Inv(states[n], recompute)
  {
    if n > 0 {
      InvAlways(states, steps, recompute, n - 1);
      StepKeepsInv(states[n - 1], steps[n - 1], recompute);
    }
  }

  // ------------------------------------------------------------------------------- what an answer is worth

  predicate HasAnswer(s: State, x: Thread) {
    x in s.threads && s.threads[x].Answered?
  }

  predicate ActiveButExpired(summary: Summary, now: Time) {
    summary.status.Active? && summary.payload.Some? && ExpiredAt(summary.payload.value, now)
  }

  /** Recomputing at a later time gives the same summary exactly when that summary was not an active licence that has
      expired since: nothing but the clock can make an answer stale. */
  lemma StaleIffExpired(key: Key, artifacts: Artifacts, trust: Trust, earlier: Time, now: Time)
    requires earlier <= now
    ensures var before := Recompute(key, artifacts, trust, earlier);
            && (Recompute(key, artifacts, trust, now) == before <==> !ActiveButExpired(before, now))
            && !ActiveButExpired(before, earlier)
  {
  }

  /** Over every run: an answer is what recomputing its key gave at some moment less than the entry's lifetime before
      the read, and it is what recomputing gives now unless it is an active licence that has expired since. An active
      answer read at `at` is for a licence that expires later than `at` minus the lifetime. */
  lemma AnswersAreBoundedlyStale(states: seq<State>, steps: seq<Step>, trust: Trust, n: nat, x: Thread)
    requires IsRun(states, steps, Recomputation(trust)) && n <= |steps| && HasAnswer(states[n], x)
    ensures
      var a, s := states[n].threads[x].answer, states[n];
      && a.summary == Recompute(a.key, s.artifacts, trust, a.computedAt)
      && a.at - a.lifetime < a.computedAt <= s.clock
      && (a.summary == Recompute(a.key, s.artifacts, trust, s.clock) <==> !ActiveButExpired(a.summary, s.clock))
      && (a.summary.status.Active? && a.summary.payload.Some? && a.summary.payload.value.expiresAt.Some? ==>
            a.at - a.lifetime < a.summary.payload.value.expiresAt.value)
  {
    RecomputationIsStable(trust);
    InvAlways(states, steps, Recomputation(trust), n);
    var a, s := states[n].threads[x].answer, states[n];
    assert PhaseOk(s.threads[x], s, Recomputation(trust));
    StaleIffExpired(a.key, s.artifacts, trust, a.computedAt, s.clock);
  }

  // ------------------------------------------------------------------------------- a fixed setting

  ghost predicate OneTtl(steps: seq<Step>, ttl: int) {
    forall i :: 0 <= i < |steps| && steps[i].Check? ==> steps[i].ttlSeconds == ttl
  }

  ghost predicate Lifetimes(s: State, lifetime: int) {
    && (s.cache.Some? ==> s.cache.value.lifetime == lifetime)
    && forall x :: x in s.threads ==> PhaseLifetime(s.threads[x], lifetime)
  }

  predicate PhaseLifetime(p: Phase, lifetime: int) {
    match p
    case Fetched(_) => true
    case Missed(_, _, l) => l == lifetime
    case Computed(_, _, l, _, _) => l == lifetime
    case Answered(a) => a.lifetime == lifetime
  }

  /** With one setting throughout, the lifetime of every answer is max(1, ttl) seconds. */
  lemma {:induction false} LifetimeIsTtl(states: seq<State>, steps: seq<Step>, recompute: Recomputer, ttl: int, n: nat)
    requires IsRun(states, steps, recompute) && OneTtl(steps, ttl) && n <= |steps|
    ensures Lifetimes(states[n], Lifetime(ttl))
  {
    if n > 0 {
      LifetimeIsTtl(states, steps, recompute, ttl, n - 1);
      var s, e := states[n - 1], steps[n - 1];
      assert Can(s, e) && states[n] == Do(s, e, recompute);
      assert e.Check? ==> e.ttlSeconds == ttl;
      forall y | y in states[n].threads ensures PhaseLifetime(states[n].threads[y], Lifetime(ttl)) {
        assert y in s.threads ==> PhaseLifetime(s.threads[y], Lifetime(ttl));
      }
    }
  }

  // ------------------------------------------------------------------------------- when the cache answers

  /** A read is answered from the cache exactly when an entry for its key has not expired; it leaves the cache alone,
      and otherwise goes on with the setting of that moment, at least a second. */
  lemma AnsweredFromCacheIff(s: State, x: Thread, ttlSeconds: int, recompute: Recomputer)
    requires Can(s, Check(x, ttlSeconds))
    ensures
      var t, key := Do(s, Check(x, ttlSeconds), recompute), s.threads[x].key;
      && t.cache == s.cache && x in t.threads
      && if s.cache.Some? && s.cache.value.key == key && s.clock < s.cache.value.expiresAt then
           && t.threads[x].Answered? && t.threads[x].answer.summary == s.cache.value.summary
           && t.threads[x].answer.at == s.clock && t.threads[x].answer.key == key
         else t.threads[x] == Missed(key, s.clock, (if ttlSeconds < 1 then 1 else ttlSeconds) * 1000000)
  {
  }

  /** Some read looked into the cache at the time `at`, with this lifetime as its setting. */
  ghost predicate LookedAt(states: seq<State>, steps: seq<Step>, n: nat, at: Time, lifetime: int)
    requires n <= |steps| < |states|
  {
    exists i :: 0 <= i < n && LooksAt(states[i], steps[i], at, lifetime)
  }

  predicate LooksAt(s: State, e: Step, at: Time, lifetime: int) {
    e.Check? && s.clock == at && lifetime == (if e.ttlSeconds < 1 then 1 else e.ttlSeconds) * 1000000
  }

  ghost predicate EntryLooked(states: seq<State>, steps: seq<Step>, n: nat, s: State)
    requires n <= |steps| < |states|
  {
    && (s.cache.Some? ==> LookedAt(states, steps, n, s.cache.value.expiresAt - s.cache.value.lifetime,
                                   s.cache.value.lifetime))
    && forall x :: x in s.threads ==> PhaseLooked(states, steps, n, s.threads[x])
  }

  ghost predicate PhaseLooked(states: seq<State>, steps: seq<Step>, n: nat, p: Phase)
    requires n <= |steps| < |states|
  {
    p.Missed? || p.Computed? ==> LookedAt(states, steps, n, p.now, p.lifetime)
  }

  lemma LookedStays(states: seq<State>, steps: seq<Step>, n: nat, at: Time, lifetime: int)
    requires n < |steps| < |states| && LookedAt(states, steps, n, at, lifetime)
    ensures LookedAt(states, steps, n + 1, at, lifetime)
  {
    var i :| 0 <= i < n && LooksAt(states[i], steps[i], at, lifetime);
    assert LooksAt(states[i], steps[i], at, lifetime);
  }

  lemma PhaseLookedStep(states: seq<State>, steps: seq<Step>, recompute: Recomputer, n: nat, x: Thread)
    requires n < |steps| < |states| && Can(states[n], steps[n]) && states[n + 1] == Do(states[n], steps[n], recompute)
    requires x in states[n + 1].threads
    requires x in states[n].threads ==> PhaseLooked(states, steps, n, states[n].threads[x])
    ensures PhaseLooked(states, steps, n + 1, states[n + 1].threads[x])
  {
    var s, e, p := states[n], steps[n], states[n + 1].threads[x];
    if e.Check? && e.x == x && p.Missed? {
      assert LooksAt(s, e, p.now, p.lifetime);
    } else if x in s.threads && (s.threads[x].Missed? || s.threads[x].Computed?) {
      LookedStays(states, steps, n, s.threads[x].now, s.threads[x].lifetime);
    }
  }

  /** Over every run: an entry expires its lifetime after the read that stored it had looked into the cache, and that is
      the setting of that moment. */
  lemma {:induction false} EntryExpiresAfterLook(states: seq<State>, steps: seq<Step>, recompute: Recomputer, n: nat)
    requires IsRun(states, steps, recompute) && n <= |steps|
    ensures EntryLooked(states, steps, n, states[n])
  {
    if n > 0 {
      EntryExpiresAfterLook(states, steps, recompute, n - 1);
      var s, e := states[n - 1], steps[n - 1];
      assert Can(s, e) && states[n] == Do(s, e, recompute);
      forall x | x in states[n].threads ensures PhaseLooked(states, steps, n, states[n].threads[x]) {
        PhaseLookedStep(states, steps, recompute, n - 1, x);
      }
      if e.Store? {
        LookedStays(states, steps, n - 1, s.threads[e.x].now, s.threads[e.x].lifetime);
      } else if states[n].cache.Some? {
        LookedStays(states, steps, n - 1, s.cache.value.expiresAt - s.cache.value.lifetime, s.cache.value.lifetime);
      }
    }
  }

  // ------------------------------------------------------------------------------- which row an answer is for

  function PhaseKey(p: Phase): Key {
    match p
    case Fetched(key) => key
    case Missed(key, _, _) => key
    case Computed(key, _, _, _, _) => key
    case Answered(a) => a.key
  }

  ghost predicate NoFetch(steps: seq<Step>, x: Thread, from: nat, to: nat)
    requires to <= |steps|
  {
    forall i :: from <= i < to ==> steps[i] != Fetch(x)
  }

  /** However long a read takes and whatever is activated meanwhile, its answer is for the row that was active when it
      fetched: after an activation no later read answers for the artifact before it. */
  lemma {:induction false} AnswerIsForFetchedRow(states: seq<State>, steps: seq<Step>, recompute: Recomputer,
                                                 m: nat, n: nat, x: Thread)
    requires IsRun(states, steps, recompute) && m < n <= |steps|
    requires steps[m] == Fetch(x) && NoFetch(steps, x, m + 1, n)
    ensures x in states[n].threads && PhaseKey(states[n].threads[x]) == KeyFor(states[m].active, states[m].artifacts)
  {
    var s, e := states[n - 1], steps[n - 1];
    assert Can(s, e) && states[n] == Do(s, e, recompute);
    if m < n - 1 {
      AnswerIsForFetchedRow(states, steps, recompute, m, n - 1, x);
      assert e != Fetch(x);
    }
  }

  lemma {:induction false} ArtifactsGrow(states: seq<State>, steps: seq<Step>, recompute: Recomputer, m: nat, n: nat)
    requires IsRun(states, steps, recompute) && m <= n <= |steps|
    ensures Grows(states[m].artifacts, states[n].artifacts)
  {
    if m < n {
      ArtifactsGrow(states, steps, recompute, m, n - 1);
      var s, e := states[n - 1], steps[n - 1];
      assert Can(s, e) && states[n] == Do(s, e, recompute);
      assert Grows(s.artifacts, states[n].artifacts);
    }
  }

  // ------------------------------------------------------------------------------- what an answer allows

  /** The text of the artifact that the row makes active. */
  function ActiveText(active: Option<ActiveRow>, artifacts: Artifacts): Option<string> {
    if active.Some? && active.value.artifactId.Some? && active.value.artifactId.value in artifacts
    then Some(artifacts[active.value.artifactId.value].text) else None
  }

  /** The row has an artifact, as far as there is a row. */
  predicate HasArtifact(active: Option<ActiveRow>) {
    active.Some? && active.value.artifactId.Some?
  }

  /** What a summary says, computed at the time `at`, for the row `active`. It is missing exactly when there is no row
      or the row has no artifact. Otherwise it is active, and allows features, by what the artifact's text licenses at
      that time; a feature that needs a licence exactly when the text entitles to it. */
  ghost predicate Says(summary: Summary, active: Option<ActiveRow>, artifacts: Artifacts, trust: Trust, at: Time) {
    && (summary.status.Missing? <==> !HasArtifact(active))
    && (summary.status.Missing? ==> summary.error == Some(LicenseMissing) && summary.payload.None?)
    && match ActiveText(active, artifacts)
       case None => !summary.status.Active? && forall f :: Allows(summary, f) <==> !NeedsLicense(f)
       case Some(text) =>
         && (summary.status.Active? <==> Licensed(text, trust, at))
         && forall f :: Allows(summary, f)
                        <==> Entitled(text, trust, at, f) || (!NeedsLicense(f) && !Licensed(text, trust, at))
  }

  lemma RecomputeSays(active: Option<ActiveRow>, artifacts: Artifacts, trust: Trust, at: Time)
    ensures Says(Recompute(KeyFor(active, artifacts), artifacts, trust, at), active, artifacts, trust, at)
  {
    match ActiveText(active, artifacts)
    case None =>
    case Some(text) =>
      ActiveIffLicensed(text, trust, at);
      forall f
        ensures Allows(Summarize(text, trust, at), f)
                <==> Entitled(text, trust, at, f) || (!NeedsLicense(f) && !Licensed(text, trust, at))
      {
        AllowedIffEntitled(text, trust, at, f);
      }
  }

  /** Over every run, whatever happens between the fetch and the answer: an answer says what the artifact that was
      active when its read fetched the row licenses, at a time less than the entry's lifetime before the read looked
      into the cache. */
  lemma AnswerSaysWhatWasActive(states: seq<State>, steps: seq<Step>, trust: Trust, m: nat, n: nat, x: Thread)
    requires IsRun(states, steps, Recomputation(trust)) && m < n <= |steps| && HasAnswer(states[n], x)
    requires steps[m] == Fetch(x) && NoFetch(steps, x, m + 1, n)
    ensures
      var a := states[n].threads[x].answer;
      && Says(a.summary, states[m].active, states[m].artifacts, trust, a.computedAt)
      && a.at - a.lifetime < a.computedAt <= states[n].clock
      && (HasArtifact(states[m].active) <==> ActiveText(states[m].active, states[m].artifacts).Some?)
  {
    var a, key := states[n].threads[x].answer, KeyFor(states[m].active, states[m].artifacts);
    AnswersAreBoundedlyStale(states, steps, trust, n, x);
    AnswerIsForFetchedRow(states, steps, Recomputation(trust), m, n, x);
    RecomputationIsStable(trust);
    InvAlways(states, steps, Recomputation(trust), m);
    ArtifactsGrow(states, steps, Recomputation(trust), m, n);
    RecomputeGrows(key, states[m].artifacts, states[n].artifacts, trust, a.computedAt);
    RecomputeSays(states[m].active, states[m].artifacts, trust, a.computedAt);
  }

  // ------------------------------------------------------------------------------- one uninterrupted call

  /** Whatever is computed says what the active artifact licenses at that time. */
  ghost predicate Tells(recompute: Recomputer, trust: Trust) {
    forall active, artifacts, at: Time ::
      Says(recompute(KeyFor(active, artifacts), artifacts, at), active, artifacts, trust, at)
  }

  lemma RecomputationTells(trust: Trust)
    ensures Tells(Recomputation(trust), trust)
  {
    forall active, artifacts, at: Time
      ensures Says(Recomputation(trust)(KeyFor(active, artifacts), artifacts, at), active, artifacts, trust, at)
    {
      RecomputeSays(active, artifacts, trust, at);
    }
  }

  /** A cached entry is a recomputation of its key at an earlier time. */
  predicate IsFrom(entry: Option<Entry>, artifacts: Artifacts, recompute: Recomputer, now: Time) {
    entry.Some? ==>
      && entry.value.summary == recompute(entry.value.key, artifacts, entry.value.computedAt)
      && entry.value.computedAt <= now && entry.value.expiresAt <= entry.value.computedAt + entry.value.lifetime
  }

  /** The module's global `_summary_cache`, in a deployment with this trust. */
  class SummaryCache {
    const trust: Trust
    const recompute: Recomputer
    var entry: Option<Entry>

    ghost predicate Valid(artifacts: Artifacts, now: Time)
      reads this
    {
      Tells(recompute, trust) && IsFrom(entry, artifacts, recompute, now)
    }

    constructor (trust: Trust)
      ensures this.trust == trust && recompute == Recomputation(trust) && entry == None
      ensures forall artifacts, now :: Valid(artifacts, now)
    {
      this.trust, this.recompute := trust, Recomputation(trust);
      entry := None;
      RecomputationTells(trust);
    }

    /** `clear_license_cache` */
    method Clear()
      modifies this
      ensures entry == None
    {
      entry := None;
    }

    /** `get_current_license`, alone: it leaves the cache and the answer that the machine's steps Fetch, Check and, on a
        miss, Compute at the time `later` and Store leave. The answer, computed at the time `at`, says what the active
        artifact licenses at that time. */
    method GetCurrentLicense(active: Option<ActiveRow>, artifacts: Artifacts, ttlSeconds: int, now: Time, later: Time)
      returns (summary: Summary, ghost at: Time)
      requires now <= later && Valid(artifacts, now)
      modifies this
      ensures
        var checked := AtCheck(old(entry), KeyFor(active, artifacts), now, Lifetime(ttlSeconds));
        if checked.Answered? then
          && summary == checked.answer.summary && entry == old(entry) && at == checked.answer.computedAt
          && now < at + checked.answer.lifetime
        else
          var computed := AtCompute(checked, artifacts, recompute, later);
          summary == computed.summary && entry == Some(Stored(computed)) && at == later
      ensures Valid(artifacts, later) && at <= later
      ensures Says(summary, active, artifacts, trust, at)
    {
      var key := KeyFor(active, artifacts);
      if entry.Some? && entry.value.key == key && entry.value.expiresAt > now {
        return entry.value.summary, entry.value.computedAt;
      }
      summary, at := recompute(key, artifacts, later), later;
      entry := Some(Entry(key, now + Lifetime(ttlSeconds), summary, later, Lifetime(ttlSeconds)));
    }
  }
}
