/** Delegated sign-in state and the token and role caches stamped with it: web/app/lib/delegated-auth-store.ts and
    web/app/lib/copilot-quarantine.ts. Node runs one stretch of code between two awaits at a time; such a stretch is one
    step here, at one moment of a strictly increasing clock. */
module DelegatedAuth {
  import opened Options

  type Time = int          // milliseconds
  type Scopes = string     // trimmed, sorted and joined
  type Id = nat

  /** The two claims, trimmed and in lower case; an empty one is missing. */
  datatype Session = Session(oid: string, upn: string)

  datatype StateKey = ByOid(oid: string) | ByUpn(upn: string)

  /** `buildKey` */
  function KeyOf(s: Session): Option<StateKey> {
    if s.oid != "" then Some(ByOid(s.oid)) else if s.upn != "" then Some(ByUpn(s.upn)) else None
  }

  /** `buildRoleCacheKey`: here the two kinds of claim are not told apart. */
  function RoleKey(s: Session): string {
    if s.oid != "" then s.oid else if s.upn != "" then s.upn else "unknown"
  }

  datatype Auth = Auth(refreshToken: Option<string>, updatedAt: Time)
  datatype Token = Token(accessToken: string, expiresAt: Time, stamp: Option<Time>)
  /** `writtenFor` is history. */
  datatype Role = Role(allowed: bool, cachedAt: Time, stamp: Option<Time>, writtenFor: Session)

  type AuthStates = map<StateKey, Auth>
  type TokenKey = (StateKey, Scopes)
  type Tokens = map<TokenKey, Token>

  const STATE_TTL: int := 86400000
  const TOKEN_MARGIN: int := 60000
  const DEFAULT_TOKEN_LIFE: int := 3600000

  // ------------------------------------------------------------------------------- the store

  /** `pruneExpiredStates` */
  function Pruned(states: AuthStates, at: Time): AuthStates {
    map k | k in states && states[k].updatedAt >= at - STATE_TTL :: states[k]
  }

  /** `getDelegatedAuthState`, on pruned states. */
  function Lookup(states: AuthStates, s: Session): Option<Auth> {
    if KeyOf(s).Some? && KeyOf(s).value in states then Some(states[KeyOf(s).value]) else None
  }

  /** `getAuthStateUpdatedAt`, on pruned states. */
  function StampOf(states: AuthStates, s: Session): Option<Time> {
    if Lookup(states, s).Some? then Some(Lookup(states, s).value.updatedAt) else None
  }

  /** `saveDelegatedAuthState` */
  function Saved(states: AuthStates, s: Session, refreshToken: Option<string>, at: Time): AuthStates {
    var live := Pruned(states, at);
    if KeyOf(s).None? then live
    else
      var current := if KeyOf(s).value in live then live[KeyOf(s).value].refreshToken else None;
      live[KeyOf(s).value := Auth(if refreshToken.Some? then refreshToken else current, at)]
  }

  /** `clearDelegatedAuthState` */
  function Cleared(states: AuthStates, s: Session): AuthStates {
    if KeyOf(s).None? then states else map k | k in states && k != KeyOf(s).value :: states[k]
  }

  // ------------------------------------------------------------------------------- the token cache

  function Dropped<K, V>(m: map<K, V>, key: K): map<K, V> {
    map k | k in m && k != key :: m[k]
  }

  /** A recorded expiry of zero is falsy, and never counts as near. */
  predicate Current(t: Token, stamp: Option<Time>, at: Time) {
    t.stamp == stamp && (t.expiresAt == 0 || t.expiresAt - at > TOKEN_MARGIN)
  }

  /** `buildDelegatedTokenCacheKey`, on pruned states. */
  function CacheKey(states: AuthStates, s: Session, scopes: Scopes): Option<TokenKey> {
    if Lookup(states, s).None? then None else Some((KeyOf(s).value, scopes))
  }

  /** What `readDelegatedTokenCache` finds, on pruned states. */
  function Found(states: AuthStates, tokens: Tokens, s: Session, scopes: Scopes, at: Time): Option<Token> {
    var key := CacheKey(states, s, scopes);
    if key.Some? && key.value in tokens && Current(tokens[key.value], StampOf(states, s), at)
    then Some(tokens[key.value]) else None
  }

  /** The cache after that read: an entry found wanting is deleted. */
  function AfterRead(states: AuthStates, tokens: Tokens, s: Session, scopes: Scopes, at: Time): Tokens {
    var key := CacheKey(states, s, scopes);
    if key.Some? && key.value in tokens && !Current(tokens[key.value], StampOf(states, s), at)
    then Dropped(tokens, key.value) else tokens
  }

  /** `writeDelegatedTokenCache`, on pruned states; an empty token deletes. */
  function AfterWrite(states: AuthStates, tokens: Tokens, s: Session, scopes: Scopes, accessToken: string,
                      expiresAt: Time): Tokens {
    var key := CacheKey(states, s, scopes);
    if key.None? then tokens
    else if accessToken == "" then Dropped(tokens, key.value)
    else tokens[key.value := Token(accessToken, expiresAt, StampOf(states, s))]
  }

  // ------------------------------------------------------------------------------- requests

  /** A request between two awaits. */
  datatype Request =
    | Minting(session: Session, scopes: Scopes, refreshToken: string, forRoles: bool)
    | HasToken(session: Session, scopes: Scopes, token: Token, fromCache: bool, forRoles: bool)
    | Checking(session: Session, cached: Role)
    | RoleMissed(session: Session)
    | HasRole(session: Session, role: Role)
    | Finished

  datatype Event =
    | SignIn(session: Session, refreshToken: Option<string>)
    | SignOut(session: Session)
    | AskToken(x: Id, session: Session, scopes: Scopes)
    | Minted(x: Id, accessToken: string, refreshToken: Option<string>, expiry: Option<Time>)
    | ConsentNeeded(x: Id)
    | RefreshFailed(x: Id)
    | AskRole(x: Id, session: Session)
    | CheckRole(x: Id, ttl: int)
    | AskRoleToken(x: Id)
    | GraphAnswered(x: Id, allowed: bool)
    | GraphFailed(x: Id)

  /** `issued` is history: which identity each stamp was issued for. */
  datatype State = State(now: Time, states: AuthStates, tokens: Tokens, roles: map<string, Role>,
                         requests: map<Id, Request>, issued: map<Time, StateKey>)

  const GRAPH_SCOPE := "https://graph.microsoft.com/Directory.Read.All"

  predicate Can(s: State, at: Time, e: Event) {
    s.now < at &&
    match e
    case SignIn(_, _) => true
    case SignOut(_) => true
    case AskToken(x, _, _) => x !in s.requests
    case Minted(x, accessToken, _, _) => x in s.requests && s.requests[x].Minting? && accessToken != ""
    case ConsentNeeded(x) => x in s.requests && s.requests[x].Minting?
    case RefreshFailed(x) => x in s.requests && s.requests[x].Minting?
    case AskRole(x, _) => x !in s.requests
    case CheckRole(x, _) => x in s.requests && s.requests[x].Checking?
    case AskRoleToken(x) => x in s.requests && s.requests[x].RoleMissed?
    case GraphAnswered(x, _) => x in s.requests && s.requests[x].HasToken? && s.requests[x].forRoles
    case GraphFailed(x) => x in s.requests && s.requests[x].HasToken? && s.requests[x].forRoles
  }

  function Issue(s: State, session: Session, at: Time): map<Time, StateKey> {
    if KeyOf(session).None? then s.issued else s.issued[at := KeyOf(session).value]
  }

  /** `getDelegatedAccessToken` up to its first await. */
  function DoAsk(s: State, at: Time, x: Id, session: Session, scopes: Scopes, forRoles: bool): State {
    var live := Pruned(s.states, at);
    var found := Found(live, s.tokens, session, scopes, at);
    var tokens := AfterRead(live, s.tokens, session, scopes, at);
    var auth := Lookup(live, session);
    if found.Some? then
      s.(now := at, states := live,
         requests := s.requests[x := HasToken(session, scopes, found.value, true, forRoles)])
    else if auth.Some? && auth.value.refreshToken.GetOr("") != "" then
      s.(now := at, states := live, tokens := tokens,
         requests := s.requests[x := Minting(session, scopes, auth.value.refreshToken.value, forRoles)])
    else
      s.(now := at, states := live, tokens := AfterWrite(live, tokens, session, scopes, "", 0),
         roles := if forRoles then Dropped(s.roles, RoleKey(session)) else s.roles,
         requests := s.requests[x := Finished])
  }

  /** A refresh that succeeded: the state is saved, then the token is cached under its new stamp. */
  function DoMinted(s: State, at: Time, x: Id, accessToken: string, refreshToken: Option<string>, expiry: Option<Time>)
    : State
    requires x in s.requests && s.requests[x].Minting?
  {
    var r := s.requests[x];
    var expiresAt := expiry.GetOr(at + DEFAULT_TOKEN_LIFE);
    var states := Saved(s.states, r.session, Some(refreshToken.GetOr(r.refreshToken)), at);
    var token := Token(accessToken, expiresAt, StampOf(states, r.session));
    s.(now := at, states := states, issued := Issue(s, r.session, at),
       tokens := AfterWrite(states, s.tokens, r.session, r.scopes, accessToken, expiresAt),
       requests := s.requests[x := HasToken(r.session, r.scopes, token, false, r.forRoles)])
  }

  /** The end of a refresh that gave no token; for a role check that is an error, which drops the cached role. */
  function DoNoToken(s: State, at: Time, x: Id, consent: bool): State
    requires x in s.requests && s.requests[x].Minting?
  {
    var r := s.requests[x];
    var live := if consent then Pruned(s.states, at) else s.states;
    s.(now := at, states := live,
       tokens := if consent then AfterWrite(live, s.tokens, r.session, r.scopes, "", 0) else s.tokens,
       roles := if r.forRoles then Dropped(s.roles, RoleKey(r.session)) else s.roles,
       requests := s.requests[x := Finished])
  }

  /** `readRoleCache` after its await, on the entry it read before. */
  function DoCheckRole(s: State, at: Time, x: Id, ttl: int): State
    requires x in s.requests && s.requests[x].Checking?
  {
    var r := s.requests[x];
    if at - r.cached.cachedAt > ttl then
      s.(now := at, roles := Dropped(s.roles, RoleKey(r.session)), requests := s.requests[x := RoleMissed(r.session)])
    else
      var live := Pruned(s.states, at);
      if r.cached.stamp != StampOf(live, r.session) then
        s.(now := at, states := live, roles := Dropped(s.roles, RoleKey(r.session)),
           requests := s.requests[x := RoleMissed(r.session)])
      else s.(now := at, states := live, requests := s.requests[x := HasRole(r.session, r.cached)])
  }

  /** `writeRoleCache` of a result without an error. */
  function DoWriteRole(s: State, at: Time, x: Id, allowed: bool): State
    requires x in s.requests && s.requests[x].HasToken?
  {
    var session := s.requests[x].session;
    var live := Pruned(s.states, at);
    s.(now := at, states := live, requests := s.requests[x := Finished],
       roles := s.roles[RoleKey(session) := Role(allowed, at, StampOf(live, session), session)])
  }

  function Do(s: State, at: Time, e: Event): State
    requires Can(s, at, e)
  {
    match e
    case SignIn(session, refreshToken) =>
      s.(now := at, states := Saved(s.states, session, refreshToken, at), issued := Issue(s, session, at))
    case SignOut(session) => s.(now := at, states := Cleared(s.states, session))
    case AskToken(x, session, scopes) => DoAsk(s, at, x, session, scopes, false)
    case Minted(x, accessToken, refreshToken, expiry) => DoMinted(s, at, x, accessToken, refreshToken, expiry)
    case ConsentNeeded(x) => DoNoToken(s, at, x, true)
    case RefreshFailed(x) => DoNoToken(s, at, x, false)
    case AskRole(x, session) =>
      var key := RoleKey(session);
      s.(now := at,
         requests := s.requests[x := if key in s.roles then Checking(session, s.roles[key]) else RoleMissed(session)])
    case CheckRole(x, ttl) => DoCheckRole(s, at, x, ttl)
    case AskRoleToken(x) => DoAsk(s, at, x, s.requests[x].session, GRAPH_SCOPE, true)
    case GraphAnswered(x, allowed) => DoWriteRole(s, at, x, allowed)
    case GraphFailed(x) =>
      s.(now := at, roles := Dropped(s.roles, RoleKey(s.requests[x].session)), requests := s.requests[x := Finished])
  }

  datatype Step = Step(at: Time, event: Event)

  ghost predicate IsRun(states: seq<State>, steps: seq<Step>) {
    && |states| == |steps| + 1
    && states[0] == State(states[0].now, map[], map[], map[], map[], map[])
    && forall i :: 0 <= i < |steps| ==>
         Can(states[i], steps[i].at, steps[i].event) && states[i + 1] == Do(states[i], steps[i].at, steps[i].event)
  }
}
