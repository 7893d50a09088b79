/** Where the tokens and roles in use come from, over every run: each refresh token from the last sign-in or refresh
    that brought one, each cached access token from the refresh that stamped it, each cached role from the directory. */
module DelegatedAuthHistory {
  import opened Options
  import opened DelegatedAuth
  import opened DelegatedAuthTheorems

  // ------------------------------------------------------------------------------- identities

  /** Two sessions have one identity exactly when their object ids agree, or neither has one and their names agree. */
  lemma SameIdentityIff(a: Session, b: Session)
    ensures KeyOf(a).Some? && KeyOf(a) == KeyOf(b)
            <==> if a.oid != "" then b.oid == a.oid else b.oid == "" && a.upn != "" && b.upn == a.upn
    ensures KeyOf(a).None? <==> a.oid == "" && a.upn == ""
  {
  }

  /** The role cache's key does not tell an object id from a name, nor either from a session without claims. */
  lemma SameRoleKeyIff(a: Session, b: Session)
    ensures RoleKey(a) == RoleKey(b) <==> RoleClaim(a) == RoleClaim(b)
    ensures KeyOf(a).Some? && KeyOf(a) == KeyOf(b) ==> RoleKey(a) == RoleKey(b)
  {
  }

  function RoleClaim(s: Session): string {
    if [s.oid, s.upn] == ["", ""] then "unknown" else if s.oid == "" then s.upn else s.oid
  }

  // ------------------------------------------------------------------------------- refresh tokens

  /** The step brings a refresh token for `k`: one given at a sign-in, or with a refresh that succeeds the one it
      answers with, else the one it was made with. */
  predicate Brings(s: State, e: Event, k: StateKey, token: string) {
    || (e.SignIn? && KeyOf(e.session) == Some(k) && e.refreshToken == Some(token))
    || (e.Minted? && e.x in s.requests && s.requests[e.x].Minting? && KeyOf(s.requests[e.x].session) == Some(k)
        && (e.refreshToken == Some(token) || (e.refreshToken.None? && s.requests[e.x].refreshToken == token)))
  }

  /** A save for `k` that brings none: a sign-in without a refresh token. */
  predicate SavesWithout(e: Event, k: StateKey) {
    e.SignIn? && KeyOf(e.session) == Some(k) && e.refreshToken.None?
  }

  /** A state of `k` is there and not older than a day. */
  predicate HasState(s: State, k: StateKey, at: Time) {
    k in s.states && at - 86400000 <= s.states[k].updatedAt
  }

  /** From step `i` on, no other token has been brought for `k`, and every save without one has found the state. */
  ghost predicate KeptSince(states: seq<State>, steps: seq<Step>, i: nat, n: nat, k: StateKey)
    requires n <= |steps| < |states|
  {
    forall j :: i < j < n ==> Keeps(states[j], steps[j], k)
  }

  ghost predicate Keeps(s: State, e: Step, k: StateKey) {
    (forall token :: !Brings(s, e.event, k, token)) && (SavesWithout(e.event, k) ==> HasState(s, k, e.at))
  }

  /** Step `i` brought `token` for `k`, and it is the last one brought since the state was absent. */
  ghost predicate LastBrought(states: seq<State>, steps: seq<Step>, i: nat, n: nat, k: StateKey, token: string)
    requires n <= |steps| < |states|
  {
    i < n && Brings(states[i], steps[i].event, k, token) && KeptSince(states, steps, i, n, k)
  }

  ghost predicate WasLastBrought(states: seq<State>, steps: seq<Step>, n: nat, k: StateKey, token: string)
    requires n <= |steps| < |states|
  {
    exists i :: 0 <= i < n && LastBrought(states, steps, i, n, k, token)
  }

  lemma BroughtIsSaved(s: State, e: Step, k: StateKey, token: string)
    requires Can(s, e.at, e.event) && Brings(s, e.event, k, token)
    ensures
      var t := Do(s, e.at, e.event);
      k in t.states && t.states[k] == Auth(Some(token), e.at) && Saves(s, e.event, k)
  {
  }

  lemma SavedWithout(s: State, e: Step, k: StateKey)
    requires Can(s, e.at, e.event) && SavesWithout(e.event, k)
    ensures
      var t := Do(s, e.at, e.event);
      && k in t.states && Saves(s, e.event, k)
      && t.states[k].refreshToken == if HasState(s, k, e.at) then s.states[k].refreshToken else None
  {
  }

  lemma SaveBringsOrNot(s: State, e: Event, k: StateKey)
    requires Saves(s, e, k)
    ensures SavesWithout(e, k) || exists token :: Brings(s, e, k, token)
  {
    if e.SignIn? && e.refreshToken.Some? {
      assert Brings(s, e, k, e.refreshToken.value);
    } else if e.Minted? {
      assert Brings(s, e, k, e.refreshToken.GetOr(s.requests[e.x].refreshToken));
    }
  }

  /** One step: the stored token afterwards is the one brought, else the one that was there, if the state was. */
  lemma TokenStep(s: State, e: Step, k: StateKey, token: string)
    requires Can(s, e.at, e.event) && k in Do(s, e.at, e.event).states
    ensures Do(s, e.at, e.event).states[k].refreshToken == Some(token)
            <==> || Brings(s, e.event, k, token)
                 || (Keeps(s, e, k) && k in s.states && s.states[k].refreshToken == Some(token))
  {
    StateAppearsIffSaved(s, e.at, e.event, k);
    if Saves(s, e.event, k) {
      SaveBringsOrNot(s, e.event, k);
      if SavesWithout(e.event, k) {
        SavedWithout(s, e, k);
      } else {
        var other :| Brings(s, e.event, k, other);
        BroughtIsSaved(s, e, k, other);
      }
    }
  }

  /** A state that is absent stays without a token until one is brought. */
  lemma AbsentStep(s: State, e: Step, k: StateKey)
    requires Can(s, e.at, e.event) && k !in s.states && Keeps(s, e, k)
    ensures k !in Do(s, e.at, e.event).states
  {
    StateAppearsIffSaved(s, e.at, e.event, k);
    if Saves(s, e.event, k) {
      SaveBringsOrNot(s, e.event, k);
    }
  }

  lemma LastBroughtStep(states: seq<State>, steps: seq<Step>, n: nat, k: StateKey, token: string)
    requires n < |steps| < |states|
    ensures WasLastBrought(states, steps, n + 1, k, token)
            <==> || Brings(states[n], steps[n].event, k, token)
                 || (Keeps(states[n], steps[n], k) && WasLastBrought(states, steps, n, k, token))
  {
    if Brings(states[n], steps[n].event, k, token) {
      assert LastBrought(states, steps, n, n + 1, k, token);
    } else if Keeps(states[n], steps[n], k) && WasLastBrought(states, steps, n, k, token) {
      var i :| 0 <= i < n && LastBrought(states, steps, i, n, k, token);
      assert LastBrought(states, steps, i, n + 1, k, token);
    }
    if WasLastBrought(states, steps, n + 1, k, token) {
      var i :| 0 <= i < n + 1 && LastBrought(states, steps, i, n + 1, k, token);
      if i < n {
        assert Keeps(states[n], steps[n], k) && LastBrought(states, steps, i, n, k, token);
      }
    }
  }

  /** Over every run: the refresh token in an identity's state is the last one a sign-in or a refresh has brought for
      that identity since its state was last absent. A save that brings one replaces the old; one that brings none keeps
      it. */
  lemma {:induction false} StoredTokenIsLastBrought(states: seq<State>, steps: seq<Step>, n: nat, k: StateKey,
                                                    token: string)
    requires IsRun(states, steps) && n <= |steps| && k in states[n].states
    ensures states[n].states[k].refreshToken == Some(token)
            <==> WasLastBrought(states, steps, n, k, token)
  {
    var s, e := states[n - 1], steps[n - 1];
    assert Can(s, e.at, e.event) && states[n] == Do(s, e.at, e.event);
    TokenStep(s, e, k, token);
    LastBroughtStep(states, steps, n - 1, k, token);
    if k in s.states {
      StoredTokenIsLastBrought(states, steps, n - 1, k, token);
    } else if Keeps(s, e, k) {
      AbsentStep(s, e, k);
    }
  }

  // ------------------------------------------------------------------------------- asking for a token

  /** A cached token that may be served to `k` at the time `at`. */
  predicate Servable(s: State, k: StateKey, scopes: Scopes, at: Time) {
    && HasState(s, k, at) && (k, scopes) in s.tokens
    && var t := s.tokens[(k, scopes)];
       t.stamp == Some(s.states[k].updatedAt) && (t.expiresAt == 0 || 60000 < t.expiresAt - at)
  }

  predicate Asks(s: State, e: Event, x: Id, session: Session, scopes: Scopes) {
    || e == AskToken(x, session, scopes)
    || (e == AskRoleToken(x) && scopes == GRAPH_SCOPE && x in s.requests && s.requests[x].RoleMissed?
        && s.requests[x].session == session)
  }

  predicate CanRefresh(s: State, k: StateKey, at: Time) {
    HasState(s, k, at) && s.states[k].refreshToken.Some? && s.states[k].refreshToken.value != ""
  }

  lemma LookupIff(s: State, session: Session, at: Time)
    ensures Lookup(Pruned(s.states, at), session)
            == if KeyOf(session).Some? && HasState(s, KeyOf(session).value, at)
               then Some(s.states[KeyOf(session).value]) else None
  {
  }

  lemma FoundIff(s: State, session: Session, scopes: Scopes, at: Time)
    ensures Found(Pruned(s.states, at), s.tokens, session, scopes, at)
            == if KeyOf(session).Some? && Servable(s, KeyOf(session).value, scopes, at)
               then Some(s.tokens[(KeyOf(session).value, scopes)]) else None
  {
    LookupIff(s, session, at);
  }

  lemma AskGives(s: State, at: Time, x: Id, session: Session, scopes: Scopes, forRoles: bool)
    ensures x in DoAsk(s, at, x, session, scopes, forRoles).requests
    ensures
      var found := Found(Pruned(s.states, at), s.tokens, session, scopes, at);
      var auth := Lookup(Pruned(s.states, at), session);
      DoAsk(s, at, x, session, scopes, forRoles).requests[x]
      == if found.Some? then HasToken(session, scopes, found.value, true, forRoles)
         else if auth.Some? && auth.value.refreshToken.Some? && auth.value.refreshToken.value != ""
         then Minting(session, scopes, auth.value.refreshToken.value, forRoles)
         else Finished
  {
  }

  /** A request for a token is served the cached one exactly when that may be, else is refreshed with the stored refresh
      token exactly when there is one, and else ends. */
  lemma AskIsServedIff(s: State, at: Time, e: Event, x: Id, session: Session, scopes: Scopes)
    requires Can(s, at, e) && Asks(s, e, x, session, scopes)
    ensures x in Do(s, at, e).requests
    ensures
      var r := Do(s, at, e).requests[x];
      if KeyOf(session).Some? && Servable(s, KeyOf(session).value, scopes, at) then
        r == HasToken(session, scopes, s.tokens[(KeyOf(session).value, scopes)], true, e.AskRoleToken?)
      else if KeyOf(session).Some? && CanRefresh(s, KeyOf(session).value, at) then
        r == Minting(session, scopes, s.states[KeyOf(session).value].refreshToken.value, e.AskRoleToken?)
      else r == Finished
  {
    AskGives(s, at, x, session, scopes, e.AskRoleToken?);
    LookupIff(s, session, at);
    FoundIff(s, session, scopes, at);
  }

  predicate JustMinting(s: State, t: State, x: Id) {
    && (x in s.requests ==> !s.requests[x].Minting?)
    && x in t.requests && t.requests[x].Minting?
  }

  lemma MintingBegins(s: State, at: Time, e: Event, x: Id)
    requires Can(s, at, e) && JustMinting(s, Do(s, at, e), x)
    ensures
      var r := Do(s, at, e).requests[x];
      && Asks(s, e, x, r.session, r.scopes) && KeyOf(r.session).Some?
      && CanRefresh(s, KeyOf(r.session).value, at)
      && s.states[KeyOf(r.session).value].refreshToken == Some(r.refreshToken)
  {
    OneRequestMoves(s, at, e);
  }

  /** Over every run: a refresh is begun with the last refresh token brought for its identity since its state was last
      absent. */
  lemma MintsWithLastBrought(states: seq<State>, steps: seq<Step>, n: nat, x: Id)
    requires IsRun(states, steps) && n < |steps| && JustMinting(states[n], states[n + 1], x)
    ensures
      var r := states[n + 1].requests[x];
      KeyOf(r.session).Some? && WasLastBrought(states, steps, n, KeyOf(r.session).value, r.refreshToken)
  {
    MintingBegins(states[n], steps[n].at, steps[n].event, x);
    var r := states[n + 1].requests[x];
    StoredTokenIsLastBrought(states, steps, n, KeyOf(r.session).value, r.refreshToken);
  }

  // ------------------------------------------------------------------------------- where tokens come from

  /** A refresh for `k` and `scopes` that gave this token. */
  predicate Gives(s: State, e: Step, key: TokenKey, t: Token) {
    && Mints(s, e.event, key) && t.stamp == Some(e.at) && t.accessToken == e.event.accessToken
    && t.expiresAt == if e.event.expiry.Some? then e.event.expiry.value else e.at + 3600000
  }

  ghost predicate WasGiven(states: seq<State>, steps: seq<Step>, n: nat, key: TokenKey, t: Token)
    requires n <= |steps| < |states|
  {
    exists i :: 0 <= i < n && Gives(states[i], steps[i], key, t)
  }

  lemma TokensAreGiven(s: State, e: Step, key: TokenKey)
    requires Can(s, e.at, e.event) && key in Do(s, e.at, e.event).tokens
    ensures
      var t := Do(s, e.at, e.event).tokens[key];
      (key in s.tokens && s.tokens[key] == t) || Gives(s, e, key, t)
  {
    StepOnlyMints(s, e.at, e.event);
    if e.event.Minted? {
      MintedToken(s, e, key);
    }
  }

  lemma MintedToken(s: State, e: Step, key: TokenKey)
    requires Can(s, e.at, e.event) && e.event.Minted?
    ensures
      var tokens := Do(s, e.at, e.event).tokens;
      if Mints(s, e.event, key) then key in tokens && Gives(s, e, key, tokens[key])
      else (key in tokens <==> key in s.tokens) && (key in tokens ==> tokens[key] == s.tokens[key])
  {
  }

  /** Over every run: a cached token is the one that a refresh for its identity and scopes gave at the moment of its
      stamp, with the expiry recorded in it, or an hour when there is none. */
  lemma {:induction false} CachedTokenWasGiven(states: seq<State>, steps: seq<Step>, n: nat, key: TokenKey)
    requires IsRun(states, steps) && n <= |steps| && key in states[n].tokens
    ensures WasGiven(states, steps, n, key, states[n].tokens[key])
  {
    var s, e := states[n - 1], steps[n - 1];
    assert Can(s, e.at, e.event) && states[n] == Do(s, e.at, e.event);
    TokensAreGiven(s, e, key);
    if key in s.tokens && s.tokens[key] == states[n].tokens[key] {
      CachedTokenWasGiven(states, steps, n - 1, key);
      var i :| 0 <= i < n - 1 && Gives(states[i], steps[i], key, s.tokens[key]);
      assert Gives(states[i], steps[i], key, states[n].tokens[key]);
    }
  }

  // ------------------------------------------------------------------------------- where roles come from

  /** The directory's answer to a role check, and what was cached of it. */
  predicate Answers(s: State, e: Step, r: Role) {
    && e.event.GraphAnswered? && e.event.x in s.requests && s.requests[e.event.x].HasToken?
    && r.allowed == e.event.allowed && r.cachedAt == e.at && r.writtenFor == s.requests[e.event.x].session
  }

  ghost predicate WasAnswered(states: seq<State>, steps: seq<Step>, n: nat, r: Role)
    requires n <= |steps| < |states|
  {
    exists i :: 0 <= i < n && Answers(states[i], steps[i], r)
  }

  /** A role that a request or the cache holds. */
  ghost predicate InUse(s: State, r: Role) {
    || (exists key :: key in s.roles && s.roles[key] == r)
    || exists x :: x in s.requests && HoldsRole(s.requests[x], r)
  }

  predicate HoldsRole(q: Request, r: Role) {
    (q.Checking? && q.cached == r) || (q.HasRole? && q.role == r)
  }

  lemma AnswerIsCached(s: State, e: Step)
    requires Can(s, e.at, e.event) && e.event.GraphAnswered?
    ensures
      var session, t := s.requests[e.event.x].session, Do(s, e.at, e.event);
      && RoleKey(session) in t.roles && Answers(s, e, t.roles[RoleKey(session)])
      && forall key :: key in t.roles && key != RoleKey(session) ==> key in s.roles && t.roles[key] == s.roles[key]
  {
  }

  lemma RoleStep(s: State, e: Step, key: string)
    requires Can(s, e.at, e.event) && key in Do(s, e.at, e.event).roles
    ensures
      var r := Do(s, e.at, e.event).roles[key];
      (key in s.roles && s.roles[key] == r) || Answers(s, e, r)
  {
    OnlyWrites(s, e.at, e.event);
    if e.event.GraphAnswered? {
      AnswerIsCached(s, e);
    }
  }

  lemma MovedRequestHolds(s: State, e: Step, r: Role)
    requires Can(s, e.at, e.event) && HasRequest(e.event) && e.event.x in Do(s, e.at, e.event).requests
    requires HoldsRole(Do(s, e.at, e.event).requests[e.event.x], r)
    ensures || (e.event.AskRole? && RoleKey(e.event.session) in s.roles && s.roles[RoleKey(e.event.session)] == r)
            || (e.event.CheckRole? && HoldsRole(s.requests[e.event.x], r))
  {
    match e.event
    case AskToken(x, session, scopes) => AskGives(s, e.at, x, session, scopes, false);
    case AskRoleToken(x) => AskGives(s, e.at, x, s.requests[x].session, GRAPH_SCOPE, true);
    case CheckRole(x, ttl) => CheckHolds(s, e.at, x, ttl, r);
    case _ =>
  }

  lemma CheckHolds(s: State, at: Time, x: Id, ttl: int, r: Role)
    requires x in s.requests && s.requests[x].Checking?
    ensures x in DoCheckRole(s, at, x, ttl).requests
    ensures HoldsRole(DoCheckRole(s, at, x, ttl).requests[x], r) ==> HoldsRole(s.requests[x], r)
  {
  }

  lemma RequestStep(s: State, e: Step, x: Id, r: Role)
    requires Can(s, e.at, e.event) && x in Do(s, e.at, e.event).requests
    requires HoldsRole(Do(s, e.at, e.event).requests[x], r)
    ensures InUse(s, r)
  {
    OneRequestMoves(s, e.at, e.event);
    if HasRequest(e.event) && x == e.event.x {
      MovedRequestHolds(s, e, r);
    }
  }

  lemma UseStep(s: State, e: Step, r: Role)
    requires Can(s, e.at, e.event) && InUse(Do(s, e.at, e.event), r)
    ensures InUse(s, r) || Answers(s, e, r)
  {
    var t := Do(s, e.at, e.event);
    if key :| key in t.roles && t.roles[key] == r {
      RoleStep(s, e, key);
    } else {
      var x :| x in t.requests && HoldsRole(t.requests[x], r);
      RequestStep(s, e, x, r);
    }
  }

  /** Over every run: a cached or served role says what the directory answered, at the moment it was cached, to a check
      by the session it was written for. */
  lemma {:induction false} RoleWasAnswered(states: seq<State>, steps: seq<Step>, n: nat, r: Role)
    requires IsRun(states, steps) && n <= |steps| && InUse(states[n], r)
    ensures WasAnswered(states, steps, n, r)
  {
    var s, e := states[n - 1], steps[n - 1];
    assert Can(s, e.at, e.event) && states[n] == Do(s, e.at, e.event);
    UseStep(s, e, r);
    if !Answers(s, e, r) {
      RoleWasAnswered(states, steps, n - 1, r);
      var i :| 0 <= i < n - 1 && Answers(states[i], steps[i], r);
      assert Answers(states[i], steps[i], r);
    }
  }

  /** A role check is granted exactly when the entry it has read is within its time to live and carries the current
      stamp of its identity; otherwise the entry is dropped. */
  lemma RoleIsServedIff(s: State, at: Time, e: Event)
    requires Can(s, at, e) && e.CheckRole?
    ensures
      var r, t := s.requests[e.x], Do(s, at, e);
      var current := KeyOf(r.session).Some? && HasState(s, KeyOf(r.session).value, at);
      if at - r.cached.cachedAt <= e.ttl
         && r.cached.stamp == (if current then Some(s.states[KeyOf(r.session).value].updatedAt) else None)
      then t.requests[e.x] == HasRole(r.session, r.cached) && t.roles == s.roles
      else t.requests[e.x] == RoleMissed(r.session) && RoleKey(r.session) !in t.roles
  {
  }

  // ------------------------------------------------------------------------------- what failures and time take away

  /** A state goes only by a sign-out of its identity, or because it is older than a day. */
  lemma StateGoesOnly(s: State, at: Time, e: Event, k: StateKey)
    requires Can(s, at, e) && k in s.states && k !in Do(s, at, e).states
    ensures SignsOut(e, k) || !HasState(s, k, at)
  {
    StateAppearsIffSaved(s, at, e, k);
  }

  /** A request ends without a token, or without an answer of the directory. */
  predicate Fails(s: State, t: State, e: Event) {
    || e.ConsentNeeded? || e.RefreshFailed? || e.GraphFailed?
    || (HasRequest(e) && !e.GraphAnswered? && e.x in t.requests && t.requests[e.x].Finished?)
  }

  /** It is one that a role check made. */
  predicate ForRoles(s: State, e: Event) {
    || e.GraphFailed? || e.AskRoleToken?
    || (HasRequest(e) && e.x in s.requests && s.requests[e.x].Minting? && s.requests[e.x].forRoles)
  }

  function SessionOf(s: State, e: Event): Session
    requires HasRequest(e)
  {
    if e.AskToken? || e.AskRole? then e.session
    else if e.x in s.requests && !s.requests[e.x].Finished? then s.requests[e.x].session
    else Session("", "")
  }

  lemma AskFails(s: State, at: Time, x: Id, session: Session, scopes: Scopes, forRoles: bool)
    requires DoAsk(s, at, x, session, scopes, forRoles).requests[x].Finished?
    ensures
      var t := DoAsk(s, at, x, session, scopes, forRoles);
      t.roles == if forRoles then Dropped(s.roles, RoleKey(session)) else s.roles
  {
  }

  /** A request that fails for a role check drops the cached role of its session, and no other; one that fails otherwise
      leaves the roles alone. Either way it is over. */
  lemma FailureDropsRole(s: State, at: Time, e: Event)
    requires Can(s, at, e) && Fails(s, Do(s, at, e), e)
    ensures
      var t := Do(s, at, e);
      && e.x in t.requests && t.requests[e.x].Finished?
      && (forall key :: key in t.roles
                        <==> key in s.roles && (ForRoles(s, e) ==> key != RoleKey(SessionOf(s, e))))
      && forall key :: key in t.roles ==> t.roles[key] == s.roles[key]
  {
    match e
    case AskToken(x, session, scopes) => AskFails(s, at, x, session, scopes, false);
    case AskRoleToken(x) => AskFails(s, at, x, s.requests[x].session, GRAPH_SCOPE, true);
    case _ =>
  }

  /** Consent that is needed drops the cached token of the identity and scopes, and no other; a refresh that fails, or
      the directory, drops none. */
  lemma ConsentDropsToken(s: State, at: Time, e: Event, key: TokenKey)
    requires Can(s, at, e) && (e.ConsentNeeded? || e.RefreshFailed? || e.GraphFailed?)
    ensures
      var r, t := s.requests[e.x], Do(s, at, e);
      var dropped := e.ConsentNeeded? && KeyOf(r.session) == Some(key.0) && HasState(s, key.0, at) && r.scopes == key.1;
      && (key in t.tokens <==> key in s.tokens && !dropped)
      && (key in t.tokens ==> t.tokens[key] == s.tokens[key])
      && (!e.ConsentNeeded? ==> t.states == s.states)
  {
  }

  lemma AskDrops(s: State, at: Time, x: Id, session: Session, scopes: Scopes, forRoles: bool, key: TokenKey)
    requires key in s.tokens && key !in DoAsk(s, at, x, session, scopes, forRoles).tokens
    ensures KeyOf(session) == Some(key.0) && scopes == key.1 && HasState(s, key.0, at)
            && !Servable(s, key.0, scopes, at)
  {
    LookupIff(s, session, at);
    FoundIff(s, session, scopes, at);
  }

  /** A request for a token's identity and scopes that it may not be served to, or that needs consent. */
  ghost predicate Discards(s: State, at: Time, e: Event, key: TokenKey) {
    || (HasRequest(e) && Asks(s, e, e.x, SessionOf(s, e), key.1) && KeyOf(SessionOf(s, e)) == Some(key.0)
        && !Servable(s, key.0, key.1, at))
    || (e.ConsentNeeded? && KeyOf(SessionOf(s, e)) == Some(key.0) && e.x in s.requests && s.requests[e.x].Minting?
        && s.requests[e.x].scopes == key.1)
  }

  /** A cached token goes only that way. */
  lemma TokenGoesOnlyDiscarded(s: State, at: Time, e: Event, key: TokenKey)
    requires Can(s, at, e) && key in s.tokens && key !in Do(s, at, e).tokens
    ensures Discards(s, at, e, key)
  {
    match e
    case AskToken(x, session, scopes) => AskDrops(s, at, x, session, scopes, false, key);
    case AskRoleToken(x) => AskDrops(s, at, x, s.requests[x].session, GRAPH_SCOPE, true, key);
    case ConsentNeeded(_) => ConsentDropsToken(s, at, e, key);
    case _ => KeepsTokens(s, at, e, key);
  }

  lemma KeepsTokens(s: State, at: Time, e: Event, key: TokenKey)
    requires Can(s, at, e) && !e.AskToken? && !e.AskRoleToken? && !e.ConsentNeeded? && key in s.tokens
    ensures key in Do(s, at, e).tokens
  {
    if e.Minted? {
      MintedToken(s, Step(at, e), key);
    }
  }
}
