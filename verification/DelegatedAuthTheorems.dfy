/** What the delegated token and role caches serve, over every interleaving of requests, sign-ins and sign-outs. */
module DelegatedAuthTheorems {
  import opened Options
  import opened DelegatedAuth

  // ------------------------------------------------------------------------------- the invariant

  ghost predicate IssuedOk(s: State) {
    forall u :: u in s.issued ==> u <= s.now
  }

  /** A state carries a stamp that was issued for its identity. */
  ghost predicate StatesOk(s: State) {
    forall k :: k in s.states ==> s.states[k].updatedAt in s.issued && s.issued[s.states[k].updatedAt] == k
  }

  predicate TokenOk(s: State, key: TokenKey, t: Token) {
    t.accessToken != "" && t.stamp.Some? && t.stamp.value in s.issued && s.issued[t.stamp.value] == key.0
  }

  ghost predicate TokensOk(s: State) {
    forall key :: key in s.tokens ==> TokenOk(s, key, s.tokens[key])
  }

  /** A save stamps one cached token at most. */
  ghost predicate OnePerStamp(s: State) {
    forall a, b :: a in s.tokens && b in s.tokens && s.tokens[a].stamp == s.tokens[b].stamp ==> a == b
  }

  predicate RoleOk(s: State, r: Role) {
    r.stamp.Some? ==> r.stamp.value in s.issued && KeyOf(r.writtenFor) == Some(s.issued[r.stamp.value])
  }

  ghost predicate RolesOk(s: State) {
    forall key :: key in s.roles ==> RoleOk(s, s.roles[key])
  }

  predicate RequestOk(s: State, r: Request) {
    match r
    case Minting(session, _, _, _) => KeyOf(session).Some?
    case Checking(_, cached) => RoleOk(s, cached)
    case HasRole(_, role) => RoleOk(s, role)
    case _ => true
  }

  ghost predicate RequestsOk(s: State) {
    forall x :: x in s.requests ==> RequestOk(s, s.requests[x])
  }

  ghost predicate Inv(s: State) {
    IssuedOk(s) && StatesOk(s) && TokensOk(s) && OnePerStamp(s) && RolesOk(s) && RequestsOk(s)
  }

  /** Nothing that was issued is reissued: facts about stamps survive every step. */
  ghost predicate Extends(s: State, t: State) {
    s.now < t.now && forall u :: u in s.issued ==> u in t.issued && t.issued[u] == s.issued[u]
  }

  lemma StampSurvives(s: State, t: State, stamp: Option<Time>)
    requires Extends(s, t) && stamp.Some? && stamp.value in s.issued
    ensures stamp.value in t.issued && t.issued[stamp.value] == s.issued[stamp.value]
  {
    var u: Time := stamp.value;
    assert u in t.issued;
  }

  lemma StepExtends(s: State, at: Time, e: Event)
    requires IssuedOk(s) && Can(s, at, e)
    ensures Extends(s, Do(s, at, e)) && IssuedOk(Do(s, at, e))
  {
  }

  lemma SaveIssues(s: State, at: Time, e: Event, k: StateKey)
    requires Can(s, at, e) && Saves(s, e, k)
    ensures at in Do(s, at, e).issued && Do(s, at, e).issued[at] == k
  {
  }

  lemma StatesKept(s: State, at: Time, e: Event)
    requires IssuedOk(s) && StatesOk(s) && Can(s, at, e)
    ensures StatesOk(Do(s, at, e))
  {
    var t := Do(s, at, e);
    StepExtends(s, at, e);
    forall k | k in t.states ensures t.states[k].updatedAt in t.issued && t.issued[t.states[k].updatedAt] == k {
      StateAppearsIffSaved(s, at, e, k);
      if Saves(s, e, k) {
        SaveIssues(s, at, e, k);
      } else {
        StampSurvives(s, t, Some(s.states[k].updatedAt));
      }
    }
  }

  /** A cached token is an old one, or the one this step minted. */
  ghost predicate OnlyMints(s: State, t: State, at: Time, e: Event) {
    forall key :: key in t.tokens ==>
      || (key in s.tokens && t.tokens[key] == s.tokens[key])
      || (Mints(s, e, key) && t.tokens[key].stamp == Some(at) && t.tokens[key].accessToken != "" && at in t.issued
          && t.issued[at] == key.0)
  }

  predicate Mints(s: State, e: Event, key: TokenKey) {
    && e.Minted? && e.x in s.requests && s.requests[e.x].Minting?
    && KeyOf(s.requests[e.x].session) == Some(key.0) && s.requests[e.x].scopes == key.1
  }

  lemma AskMintsNothing(s: State, at: Time, x: Id, session: Session, scopes: Scopes, forRoles: bool)
    ensures forall key :: key in DoAsk(s, at, x, session, scopes, forRoles).tokens ==>
              key in s.tokens && DoAsk(s, at, x, session, scopes, forRoles).tokens[key] == s.tokens[key]
  {
  }

  lemma MintedMints(s: State, at: Time, e: Event)
    requires e.Minted? && Can(s, at, e)
    ensures OnlyMints(s, Do(s, at, e), at, e)
  {
  }

  lemma StepOnlyMints(s: State, at: Time, e: Event)
    requires Can(s, at, e)
    ensures OnlyMints(s, Do(s, at, e), at, e)
  {
    match e
    case AskToken(x, session, scopes) => AskMintsNothing(s, at, x, session, scopes, false);
    case AskRoleToken(x) => AskMintsNothing(s, at, x, s.requests[x].session, GRAPH_SCOPE, true);
    case Minted(_, _, _, _) => MintedMints(s, at, e);
    case _ =>
  }

  lemma TokensKept(s: State, t: State, at: Time, e: Event)
    requires TokensOk(s) && OnlyMints(s, t, at, e) && Extends(s, t)
    ensures TokensOk(t)
  {
    forall key | key in t.tokens ensures TokenOk(t, key, t.tokens[key]) {
      if key in s.tokens && t.tokens[key] == s.tokens[key] {
        assert TokenOk(s, key, s.tokens[key]);
        StampSurvives(s, t, s.tokens[key].stamp);
      }
    }
  }

  lemma OnePerStampKept(s: State, t: State, at: Time, e: Event)
    requires IssuedOk(s) && s.now < at && TokensOk(s) && OnePerStamp(s) && OnlyMints(s, t, at, e)
    ensures OnePerStamp(t)
  {
    forall a, b | a in t.tokens && b in t.tokens && t.tokens[a].stamp == t.tokens[b].stamp ensures a == b {
      assert a in s.tokens ==> TokenOk(s, a, s.tokens[a]);
      assert b in s.tokens ==> TokenOk(s, b, s.tokens[b]);
    }
  }

  /** A cached role is an old one, or the one this step wrote with the stamp of that moment. */
  lemma OnlyWrites(s: State, at: Time, e: Event)
    requires Can(s, at, e)
    ensures
      var t := Do(s, at, e);
      forall key :: key in t.roles ==>
        || (key in s.roles && t.roles[key] == s.roles[key])
        || (e.GraphAnswered? && key == RoleKey(s.requests[e.x].session)
            && t.roles[key].writtenFor == s.requests[e.x].session
            && t.roles[key].stamp == StampOf(Pruned(s.states, at), s.requests[e.x].session))
  {
  }

  lemma StampIsIssued(s: State, at: Time, session: Session)
    requires StatesOk(s) && StampOf(Pruned(s.states, at), session).Some?
    ensures var u := StampOf(Pruned(s.states, at), session).value;
            u in s.issued && KeyOf(session) == Some(s.issued[u])
  {
  }

  lemma RolesKept(s: State, at: Time, e: Event)
    requires IssuedOk(s) && StatesOk(s) && RolesOk(s) && Can(s, at, e)
    ensures RolesOk(Do(s, at, e))
  {
    var t := Do(s, at, e);
    StepExtends(s, at, e);
    OnlyWrites(s, at, e);
    forall key | key in t.roles ensures RoleOk(t, t.roles[key]) {
      if key in s.roles && t.roles[key] == s.roles[key] {
        assert RoleOk(s, s.roles[key]);
      } else if t.roles[key].stamp.Some? {
        StampIsIssued(s, at, s.requests[e.x].session);
      }
      RoleSurvives(s, t, t.roles[key]);
    }
  }

  predicate HasRequest(e: Event) {
    !e.SignIn? && !e.SignOut?
  }

  /** A step moves its own request only. */
  lemma OneRequestMoves(s: State, at: Time, e: Event)
    requires Can(s, at, e)
    ensures forall x :: x in Do(s, at, e).requests ==>
              (HasRequest(e) && x == e.x) || (x in s.requests && Do(s, at, e).requests[x] == s.requests[x])
  {
  }

  lemma MovedRequestOk(s: State, at: Time, e: Event)
    requires IssuedOk(s) && RolesOk(s) && RequestsOk(s) && Can(s, at, e) && HasRequest(e)
    ensures e.x in Do(s, at, e).requests && RequestOk(s, Do(s, at, e).requests[e.x])
  {
    assert e.x in s.requests ==> RequestOk(s, s.requests[e.x]);
  }

  lemma RequestsKept(s: State, at: Time, e: Event)
    requires IssuedOk(s) && RolesOk(s) && RequestsOk(s) && Can(s, at, e)
    ensures RequestsOk(Do(s, at, e))
  {
    var t := Do(s, at, e);
    StepExtends(s, at, e);
    OneRequestMoves(s, at, e);
    if HasRequest(e) {
      MovedRequestOk(s, at, e);
    }
    forall x | x in t.requests ensures RequestOk(t, t.requests[x]) {
      assert RequestOk(s, t.requests[x]);
      RequestSurvives(s, t, t.requests[x]);
    }
  }

  lemma RoleSurvives(s: State, t: State, r: Role)
    requires Extends(s, t) && RoleOk(s, r)
    ensures RoleOk(t, r)
  {
    if r.stamp.Some? {
      StampSurvives(s, t, r.stamp);
    }
  }

  lemma RequestSurvives(s: State, t: State, r: Request)
    requires Extends(s, t) && RequestOk(s, r)
    ensures RequestOk(t, r)
  {
    match r
    case Checking(_, cached) => RoleSurvives(s, t, cached);
    case HasRole(_, role) => RoleSurvives(s, t, role);
    case _ =>
  }

  lemma StepKeepsInv(s: State, at: Time, e: Event)
    requires Inv(s) && Can(s, at, e)
    ensures Inv(Do(s, at, e))
  {
    StepExtends(s, at, e);
    StatesKept(s, at, e);
    StepOnlyMints(s, at, e);
    TokensKept(s, Do(s, at, e), at, e);
    OnePerStampKept(s, Do(s, at, e), at, e);
    RolesKept(s, at, e);
    RequestsKept(s, at, e);
  }

  lemma {:induction false} InvAlways(states: seq<State>, steps: seq<Step>, n: nat)
    requires IsRun(states, steps) && n <= |steps|
    ensures Inv(states[n])
  {
    if n > 0 {
      InvAlways(states, steps, n - 1);
      StepKeepsInv(states[n - 1], steps[n - 1].at, steps[n - 1].event);
    }
  }

  // ------------------------------------------------------------------------------- tokens

  /** Request `x` has just been given a token out of the cache. */
  predicate JustServed(s: State, t: State, x: Id) {
    && (x in s.requests ==> !s.requests[x].HasToken?)
    && x in t.requests && t.requests[x].HasToken? && t.requests[x].fromCache
  }

  /** A cached token of identity `k` that carries the current stamp. */
  predicate Live(s: State, k: StateKey, scopes: Scopes) {
    k in s.states && (k, scopes) in s.tokens && s.tokens[(k, scopes)].stamp == Some(s.states[k].updatedAt)
  }

  lemma ServedByAsk(s: State, at: Time, e: Event, x: Id)
    requires Can(s, at, e) && JustServed(s, Do(s, at, e), x)
    ensures
      var t := Do(s, at, e);
      var r := t.requests[x];
      KeyOf(r.session).Some? && Live(t, KeyOf(r.session).value, r.scopes)
      && t.tokens[(KeyOf(r.session).value, r.scopes)] == r.token
      && Current(r.token, StampOf(t.states, r.session), t.now)
      && t.now - STATE_TTL <= t.states[KeyOf(r.session).value].updatedAt
  {
    OneRequestMoves(s, at, e);
    assert e.AskToken? || e.AskRoleToken?;
  }

  /** Over every run: a token comes out of the cache only for the identity and the scopes it was cached under, with that
      identity's current stamp, which is at most a day old, and with more than a minute left unless its recorded
      expiry is zero. */
  lemma ServedTokenIsCurrent(states: seq<State>, steps: seq<Step>, n: nat, x: Id)
    requires IsRun(states, steps) && n < |steps| && JustServed(states[n], states[n + 1], x)
    ensures
      var t := states[n + 1];
      var r := t.requests[x];
      && KeyOf(r.session).Some? && Live(t, KeyOf(r.session).value, r.scopes)
      && t.tokens[(KeyOf(r.session).value, r.scopes)] == r.token && r.token.accessToken != ""
      && (r.token.expiresAt != 0 ==> t.now + TOKEN_MARGIN < r.token.expiresAt)
      && t.now - STATE_TTL <= t.states[KeyOf(r.session).value].updatedAt
  {
    InvAlways(states, steps, n + 1);
    ServedByAsk(states[n], steps[n].at, steps[n].event, x);
    var t := states[n + 1];
    var key := (KeyOf(t.requests[x].session).value, t.requests[x].scopes);
    assert TokenOk(t, key, t.tokens[key]);
  }

  /** At most one cached token of an identity is live. */
  lemma OneLiveToken(states: seq<State>, steps: seq<Step>, n: nat, k: StateKey, a: Scopes, b: Scopes)
    requires IsRun(states, steps) && n <= |steps| && Live(states[n], k, a) && Live(states[n], k, b)
    ensures a == b
  {
    InvAlways(states, steps, n);
    assert (k, a) == (k, b);
  }

  /** Minting for one scope set makes every other cached token of the identity stale. */
  lemma MintingStales(s: State, at: Time, e: Event, k: StateKey, scopes: Scopes)
    requires Inv(s) && Can(s, at, e) && Mints(s, e, (k, scopes))
    ensures Live(Do(s, at, e), k, scopes)
    ensures forall other :: Live(Do(s, at, e), k, other) ==> other == scopes
  {
    var t := Do(s, at, e);
    StepKeepsInv(s, at, e);
    assert t.tokens[(k, scopes)].stamp == Some(at) && t.states[k].updatedAt == at;
    forall other | Live(t, k, other) ensures other == scopes {
      assert (k, other) == (k, scopes);
    }
  }

  // ------------------------------------------------------------------------------- sign-out

  /** The step saves a state for `k`: a sign-in, or a refresh that was in flight. */
  predicate Saves(s: State, e: Event, k: StateKey) {
    || (e.SignIn? && KeyOf(e.session) == Some(k))
    || (e.Minted? && e.x in s.requests && s.requests[e.x].Minting? && KeyOf(s.requests[e.x].session) == Some(k))
  }

  /** A state that was not there is there after a step exactly when that step saves it, and then it is stamped with the
      step's time; a refresh that outlives a sign-out does bring the state back. */
  lemma StateAppearsIffSaved(s: State, at: Time, e: Event, k: StateKey)
    requires Can(s, at, e)
    ensures k !in s.states ==> (k in Do(s, at, e).states <==> Saves(s, e, k))
    ensures Saves(s, e, k) ==> Do(s, at, e).states[k].updatedAt == at
    ensures k in s.states && k in Do(s, at, e).states && !Saves(s, e, k) ==> Do(s, at, e).states[k] == s.states[k]
  {
  }

  predicate SignsOut(e: Event, k: StateKey) {
    e.SignOut? && KeyOf(e.session) == Some(k)
  }

  lemma ClockMoves(s: State, at: Time, e: Event)
    requires Can(s, at, e)
    ensures s.now < at == Do(s, at, e).now
  {
  }

  lemma SignOutClears(s: State, at: Time, e: Event, k: StateKey)
    requires Can(s, at, e) && SignsOut(e, k)
    ensures k !in Do(s, at, e).states
  {
  }

  /** Any state of `k` was saved after the moment `t`. */
  predicate SavedAfter(s: State, k: StateKey, t: Time) {
    t <= s.now && (k in s.states ==> t < s.states[k].updatedAt)
  }

  lemma StaysSavedAfter(s: State, at: Time, e: Event, k: StateKey, t: Time)
    requires Can(s, at, e) && SavedAfter(s, k, t)
    ensures SavedAfter(Do(s, at, e), k, t)
  {
    ClockMoves(s, at, e);
    StateAppearsIffSaved(s, at, e, k);
  }

  /** From a sign-out on, an identity's state is younger than the sign-out. */
  lemma {:induction false} StateYoungerThanSignOut(states: seq<State>, steps: seq<Step>, m: nat, n: nat, k: StateKey)
    requires IsRun(states, steps) && m < n <= |steps| && SignsOut(steps[m].event, k)
    ensures SavedAfter(states[n], k, steps[m].at)
  {
    var s, e := states[n - 1], steps[n - 1];
    assert Can(s, e.at, e.event) && states[n] == Do(s, e.at, e.event);
    if m < n - 1 {
      StateYoungerThanSignOut(states, steps, m, n - 1, k);
      StaysSavedAfter(s, e.at, e.event, k, steps[m].at);
    } else {
      ClockMoves(s, e.at, e.event);
      SignOutClears(s, e.at, e.event, k);
    }
  }

  /** No token cached before a sign-out is served after it. */
  lemma NoTokenSurvivesSignOut(states: seq<State>, steps: seq<Step>, m: nat, n: nat, k: StateKey, x: Id)
    requires IsRun(states, steps) && m < n < |steps| && SignsOut(steps[m].event, k)
    requires JustServed(states[n], states[n + 1], x) && KeyOf(states[n + 1].requests[x].session) == Some(k)
    ensures states[n + 1].requests[x].token.stamp.Some?
            && steps[m].at < states[n + 1].requests[x].token.stamp.value
  {
    StateYoungerThanSignOut(states, steps, m, n + 1, k);
    ServedTokenIsCurrent(states, steps, n, x);
  }

  ghost predicate NoSave(states: seq<State>, steps: seq<Step>, m: nat, n: nat, k: StateKey)
    requires n <= |steps| && |steps| < |states|
  {
    forall i :: m <= i < n ==> !Saves(states[i], steps[i].event, k)
  }

  /** After a sign-out there is no state, and no token is served, until one is saved. */
  lemma {:induction false} SignedOutUntilSaved(states: seq<State>, steps: seq<Step>, m: nat, n: nat, k: StateKey, x: Id)
    requires IsRun(states, steps) && m < n <= |steps| && SignsOut(steps[m].event, k)
    requires NoSave(states, steps, m + 1, n, k)
    ensures k !in states[n].states
    ensures JustServed(states[n - 1], states[n], x) ==> KeyOf(states[n].requests[x].session) != Some(k)
  {
    var s, e := states[n - 1], steps[n - 1];
    assert Can(s, e.at, e.event) && states[n] == Do(s, e.at, e.event);
    if m < n - 1 {
      SignedOutUntilSaved(states, steps, m, n - 1, k, x);
      StateAppearsIffSaved(s, e.at, e.event, k);
    }
    if JustServed(s, states[n], x) {
      ServedTokenIsCurrent(states, steps, n - 1, x);
    }
  }

  // ------------------------------------------------------------------------------- roles

  predicate JustGranted(s: State, t: State, x: Id) {
    && (x in s.requests ==> !s.requests[x].HasRole?)
    && x in t.requests && t.requests[x].HasRole?
  }

  lemma GrantedByCheck(s: State, at: Time, e: Event, x: Id)
    requires Can(s, at, e) && JustGranted(s, Do(s, at, e), x)
    ensures
      var t := Do(s, at, e);
      var r := t.requests[x];
      r.role.stamp == StampOf(t.states, r.session) && e.CheckRole? && t.now - r.role.cachedAt <= e.ttl
  {
    OneRequestMoves(s, at, e);
  }

  /** Over every run: a role comes out of the cache only within its time to live and under the identity's current stamp.
      A stamped role is thus served to the very identity it was looked up for, although the cache's key does not tell
      the two kinds of claim apart; and a role is served to an identity with no state exactly when it has no stamp. */
  lemma ServedRoleIsCurrent(states: seq<State>, steps: seq<Step>, n: nat, x: Id)
    requires IsRun(states, steps) && n < |steps| && JustGranted(states[n], states[n + 1], x)
    ensures
      var t := states[n + 1];
      var r := t.requests[x];
      && r.role.stamp == StampOf(t.states, r.session)
      && steps[n].event.CheckRole? && t.now - r.role.cachedAt <= steps[n].event.ttl
      && (Lookup(t.states, r.session).None? <==> r.role.stamp.None?)
      && (r.role.stamp.Some? ==> KeyOf(r.role.writtenFor) == KeyOf(r.session))
  {
    InvAlways(states, steps, n + 1);
    GrantedByCheck(states[n], steps[n].at, steps[n].event, x);
    var t := states[n + 1];
    var r := t.requests[x];
    assert RequestOk(t, r);
    if r.role.stamp.Some? {
      var k := KeyOf(r.session).value;
      assert k in t.states;
    }
  }

  /** The request holds a role of the cache's key `key` that has no stamp. */
  predicate Unstamped(r: Request, key: string) {
    && (r.Checking? || r.HasRole?) && RoleKey(r.session) == key
    && (if r.Checking? then r.cached.stamp.None? else r.role.stamp.None?)
  }

  /** Whenever roles are written under `key`, their identity still has a live state: it has neither signed out nor been
      pruned while the directory was asked. Other keys do not matter. */
  ghost predicate Uninterrupted(states: seq<State>, steps: seq<Step>, key: string)
    requires |steps| < |states|
  {
    forall i :: 0 <= i < |steps| ==> WritesWithState(states[i], steps[i], key)
  }

  predicate Writes(s: State, e: Step, key: string) {
    && e.event.GraphAnswered? && e.event.x in s.requests && s.requests[e.event.x].HasToken?
    && RoleKey(s.requests[e.event.x].session) == key
  }

  predicate WritesWithState(s: State, e: Step, key: string) {
    Writes(s, e, key) ==> Lookup(Pruned(s.states, e.at), s.requests[e.event.x].session).Some?
  }

  ghost predicate AllStamped(s: State, key: string) {
    && (key in s.roles ==> s.roles[key].stamp.Some?)
    && forall x :: x in s.requests ==> !Unstamped(s.requests[x], key)
  }

  lemma WriteIsKept(s: State, e: Step, key: string)
    requires Can(s, e.at, e.event) && Writes(s, e, key)
    ensures
      var t := Do(s, e.at, e.event);
      key in t.roles && t.roles[key].stamp == StampOf(Pruned(s.states, e.at), s.requests[e.event.x].session)
  {
  }

  lemma RoleStaysStamped(s: State, e: Step, key: string)
    requires AllStamped(s, key) && Can(s, e.at, e.event)
    ensures
      var t := Do(s, e.at, e.event);
      (key in t.roles ==> t.roles[key].stamp.Some?) <==> WritesWithState(s, e, key)
  {
    OnlyWrites(s, e.at, e.event);
    if Writes(s, e, key) {
      WriteIsKept(s, e, key);
    }
  }

  lemma RequestsStayStamped(s: State, e: Step, key: string)
    requires AllStamped(s, key) && Can(s, e.at, e.event)
    ensures forall x :: x in Do(s, e.at, e.event).requests ==> !Unstamped(Do(s, e.at, e.event).requests[x], key)
  {
    OneRequestMoves(s, e.at, e.event);
    if HasRequest(e.event) {
      assert e.event.x in s.requests ==> !Unstamped(s.requests[e.event.x], key);
    }
  }

  /** A role is cached under a key without a stamp exactly when its identity has no live state at that moment. */
  lemma StaysStamped(s: State, e: Step, key: string)
    requires AllStamped(s, key) && Can(s, e.at, e.event)
    ensures AllStamped(Do(s, e.at, e.event), key) <==> WritesWithState(s, e, key)
  {
    RoleStaysStamped(s, e, key);
    RequestsStayStamped(s, e, key);
  }

  lemma {:induction false} AlwaysStamped(states: seq<State>, steps: seq<Step>, n: nat, key: string)
    requires IsRun(states, steps) && Uninterrupted(states, steps, key) && n <= |steps|
    ensures AllStamped(states[n], key)
  {
    if n > 0 {
      AlwaysStamped(states, steps, n - 1, key);
      assert WritesWithState(states[n - 1], steps[n - 1], key);
      StaysStamped(states[n - 1], steps[n - 1], key);
    }
  }

  /** With the role checks under its key uninterrupted, no identity is served a role while it has no state, so none
      after a sign-out and before the next save, and none that was cached before the sign-out. */
  lemma RolesNeedState(states: seq<State>, steps: seq<Step>, n: nat, x: Id)
    requires IsRun(states, steps) && n < |steps| && JustGranted(states[n], states[n + 1], x)
    requires Uninterrupted(states, steps, RoleKey(states[n + 1].requests[x].session))
    ensures Lookup(states[n + 1].states, states[n + 1].requests[x].session).Some?
  {
    AlwaysStamped(states, steps, n + 1, RoleKey(states[n + 1].requests[x].session));
    ServedRoleIsCurrent(states, steps, n, x);
  }

  /** No stamped role from before a sign-out is served after it. */
  lemma NoRoleSurvivesSignOut(states: seq<State>, steps: seq<Step>, m: nat, n: nat, k: StateKey, x: Id)
    requires IsRun(states, steps) && m < n < |steps| && SignsOut(steps[m].event, k)
    requires JustGranted(states[n], states[n + 1], x) && KeyOf(states[n + 1].requests[x].session) == Some(k)
    ensures states[n + 1].requests[x].role.stamp.Some? ==> steps[m].at < states[n + 1].requests[x].role.stamp.value
  {
    StateYoungerThanSignOut(states, steps, m, n + 1, k);
    ServedRoleIsCurrent(states, steps, n, x);
  }
}
