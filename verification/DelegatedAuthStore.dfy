/** The module-level maps of web/app/lib/delegated-auth-store.ts and web/app/lib/copilot-quarantine.ts, updated in place
    as the steps of `DelegatedAuth` say. */
module DelegatedAuthStore {
  import opened Options
  import opened DelegatedAuth

  lemma PrunedTwice(states: AuthStates, at: Time)
    ensures Pruned(Pruned(states, at), at) == Pruned(states, at)
  {
  }

  lemma SavedIsPruned(states: AuthStates, session: Session, refreshToken: Option<string>, at: Time)
    ensures Pruned(Saved(states, session, refreshToken, at), at) == Saved(states, session, refreshToken, at)
  {
  }

  class AuthStore {
    var states: AuthStates

    constructor ()
      ensures states == map[]
    {
      states := map[];
    }

    /** `pruneExpiredStates`: entries are deleted while the map is walked. */
    method PruneExpiredStates(at: Time)
      modifies this
      ensures states == Pruned(old(states), at)
    {
      var cutoff := at - STATE_TTL;
      var left := states.Keys;
      while left != {}
        invariant left <= states.Keys <= old(states).Keys
        invariant forall k :: k in states ==> states[k] == old(states)[k]
        invariant forall k :: k in old(states) && k !in left ==>
                    (k in states <==> old(states)[k].updatedAt >= cutoff)
        decreases |left|
      {
        var key :| key in left;
        left := left - {key};
        if states[key].updatedAt < cutoff {
          states := Dropped(states, key);
        }
      }
    }

    /** `saveDelegatedAuthState`: a refresh token that is given replaces the old one, and without one the old one is
        kept if its state is not older than a day. Other states stay unless they are. */
    method SaveDelegatedAuthState(session: Session, refreshToken: Option<string>, at: Time)
      returns (saved: Option<Auth>)
      modifies this
      ensures states == Saved(old(states), session, refreshToken, at)
      ensures saved == if KeyOf(session).None? then None else Some(states[KeyOf(session).value])
      ensures saved.Some? ==>
                && saved.value.updatedAt == at
                && (refreshToken.Some? ==> saved.value.refreshToken == refreshToken)
                && (refreshToken.None? && KeyOf(session).value in old(states)
                    && at - 86400000 <= old(states)[KeyOf(session).value].updatedAt ==>
                      saved.value.refreshToken == old(states)[KeyOf(session).value].refreshToken)
                && (refreshToken.None? && (KeyOf(session).value !in old(states)
                                           || old(states)[KeyOf(session).value].updatedAt < at - 86400000) ==>
                      saved.value.refreshToken.None?)
      ensures forall k :: Some(k) != KeyOf(session) ==>
                && (k in states <==> k in old(states) && at - 86400000 <= old(states)[k].updatedAt)
                && (k in states ==> states[k] == old(states)[k])
    {
      PruneExpiredStates(at);
      var key := KeyOf(session);
      if key.None? {
        return None;
      }
      var current := if key.value in states then states[key.value].refreshToken else None;
      var next := Auth(if refreshToken.Some? then refreshToken else current, at);
      states := states[key.value := next];
      saved := Some(next);
    }

    /** `getDelegatedAuthState` */
    method GetDelegatedAuthState(session: Session, at: Time) returns (state: Option<Auth>)
      modifies this
      ensures states == Pruned(old(states), at) && state == Lookup(states, session)
    {
      PruneExpiredStates(at);
      var key := KeyOf(session);
      state := if key.None? || key.value !in states then None else Some(states[key.value]);
    }

    /** `clearDelegatedAuthState` */
    method ClearDelegatedAuthState(session: Session) returns (removed: bool)
      modifies this
      ensures states == Cleared(old(states), session)
      ensures removed <==> KeyOf(session).Some? && KeyOf(session).value in old(states)
    {
      var key := KeyOf(session);
      if key.None? {
        return false;
      }
      removed := key.value in states;
      states := Dropped(states, key.value);
    }

    method GetAuthStateUpdatedAt(session: Session, at: Time) returns (stamp: Option<Time>)
      modifies this
      ensures states == Pruned(old(states), at) && stamp == StampOf(states, session)
    {
      var state := GetDelegatedAuthState(session, at);
      stamp := if state.None? then None else Some(state.value.updatedAt);
    }
  }

  class Caches {
    const store: AuthStore
    var tokens: Tokens
    var roles: map<string, Role>

    constructor (store: AuthStore)
      ensures this.store == store && tokens == map[] && roles == map[]
    {
      this.store := store;
      tokens, roles := map[], map[];
    }

    /** `buildDelegatedTokenCacheKey` */
    method BuildDelegatedTokenCacheKey(session: Session, scopes: Scopes, at: Time) returns (key: Option<TokenKey>)
      modifies store
      ensures store.states == Pruned(old(store.states), at) && key == CacheKey(store.states, session, scopes)
    {
      var state := store.GetDelegatedAuthState(session, at);
      key := if state.None? then None else Some((KeyOf(session).value, scopes));
    }

    /** `readDelegatedTokenCache` */
    method ReadDelegatedTokenCache(session: Session, scopes: Scopes, at: Time) returns (cached: Option<Token>)
      modifies this`tokens, store
      ensures store.states == Pruned(old(store.states), at)
      ensures cached == Found(store.states, old(tokens), session, scopes, at)
      ensures tokens == AfterRead(store.states, old(tokens), session, scopes, at)
    {
      PrunedTwice(store.states, at);
      var key := BuildDelegatedTokenCacheKey(session, scopes, at);
      if key.None? || key.value !in tokens {
        return None;
      }
      var entry := tokens[key.value];
      var stamp := store.GetAuthStateUpdatedAt(session, at);
      if entry.stamp != stamp {
        tokens := Dropped(tokens, key.value);
        return None;
      }
      if entry.expiresAt != 0 && entry.expiresAt - at <= TOKEN_MARGIN {
        tokens := Dropped(tokens, key.value);
        return None;
      }
      cached := Some(entry);
    }

    /** `writeDelegatedTokenCache` */
    method WriteDelegatedTokenCache(session: Session, scopes: Scopes, accessToken: string, expiresAt: Time, at: Time)
      modifies this`tokens, store
      ensures store.states == Pruned(old(store.states), at)
      ensures tokens == AfterWrite(store.states, old(tokens), session, scopes, accessToken, expiresAt)
    {
      PrunedTwice(store.states, at);
      var key := BuildDelegatedTokenCacheKey(session, scopes, at);
      if key.None? {
        return;
      }
      if accessToken == "" {
        tokens := Dropped(tokens, key.value);
        return;
      }
      var stamp := store.GetAuthStateUpdatedAt(session, at);
      tokens := tokens[key.value := Token(accessToken, expiresAt, stamp)];
    }

    /** `getDelegatedAccessToken` up to its first await: a cached token, a refresh token to use, or neither. It leaves
        the maps as the step `DoAsk` of request `x` does. */
    method BeginAccessToken(session: Session, scopes: Scopes, at: Time, ghost s: State, ghost x: Id)
      returns (cached: Option<Token>, refreshToken: Option<string>)
      requires s.states == store.states && s.tokens == tokens
      modifies this`tokens, store
      ensures
        var t := DoAsk(s, at, x, session, scopes, false);
        && store.states == t.states && tokens == t.tokens
        && t.requests[x] == if cached.Some? then HasToken(session, scopes, cached.value, true, false)
                            else if refreshToken.Some? then Minting(session, scopes, refreshToken.value, false)
                            else Finished
    {
      refreshToken := None;
      PrunedTwice(store.states, at);
      cached := ReadDelegatedTokenCache(session, scopes, at);
      if cached.Some? {
        return;
      }
      var state := store.GetDelegatedAuthState(session, at);
      if state.Some? && state.value.refreshToken.GetOr("") != "" {
        refreshToken := state.value.refreshToken;
        return;
      }
      WriteDelegatedTokenCache(session, scopes, "", 0, at);
    }

    /** `getDelegatedAccessToken` after a refresh that gave a token: the step `DoMinted` of request `x`. The state holds
        the refresh token the refresh answered with, else the one it was made with; the token is cached for its expiry,
        else an hour, under the stamp of the state. */
    method FinishRefresh(session: Session, scopes: Scopes, usedRefreshToken: string, accessToken: string,
                         nextRefreshToken: Option<string>, expiry: Option<Time>, at: Time, ghost s: State, ghost x: Id)
      requires s.states == store.states && s.tokens == tokens && accessToken != ""
      requires x in s.requests && s.requests[x].Minting?
      requires s.requests[x] == Minting(session, scopes, usedRefreshToken, s.requests[x].forRoles)
      modifies this`tokens, store
      ensures store.states == DoMinted(s, at, x, accessToken, nextRefreshToken, expiry).states
      ensures tokens == DoMinted(s, at, x, accessToken, nextRefreshToken, expiry).tokens
      ensures KeyOf(session).Some? ==>
                var k := KeyOf(session).value;
                && k in store.states
                && store.states[k]
                   == Auth(if nextRefreshToken.Some? then nextRefreshToken else Some(usedRefreshToken), at)
                && tokens == old(tokens)[(k, scopes) := Token(accessToken,
                                                              if expiry.Some? then expiry.value else at + 3600000,
                                                              Some(at))]
    {
      var expiresAt := if expiry.Some? then expiry.value else at + DEFAULT_TOKEN_LIFE;
      var refreshToken := if nextRefreshToken.Some? then nextRefreshToken.value else usedRefreshToken;
      var saved := store.SaveDelegatedAuthState(session, Some(refreshToken), at);
      SavedIsPruned(s.states, session, Some(refreshToken), at);
      WriteDelegatedTokenCache(session, scopes, accessToken, expiresAt, at);
    }

    /** The second half of `readRoleCache`, on the entry read before its await. */
    method CheckRoleEntry(session: Session, cached: Role, ttl: int, at: Time) returns (role: Option<Role>)
      modifies this`roles, store
      ensures
        var live := Pruned(old(store.states), at);
        var expired := at - cached.cachedAt > ttl;
        && (store.states == if expired then old(store.states) else live)
        && (role == if !expired && cached.stamp == StampOf(live, session) then Some(cached) else None)
        && (roles == if role.None? then Dropped(old(roles), RoleKey(session)) else old(roles))
    {
      if at - cached.cachedAt > ttl {
        roles := Dropped(roles, RoleKey(session));
        return None;
      }
      var stamp := store.GetAuthStateUpdatedAt(session, at);
      if cached.stamp != stamp {
        roles := Dropped(roles, RoleKey(session));
        return None;
      }
      role := Some(cached);
    }

    /** `writeRoleCache` */
    method WriteRoleCache(session: Session, allowed: bool, failed: bool, at: Time)
      modifies this`roles, store
      ensures store.states == if failed then old(store.states) else Pruned(old(store.states), at)
      ensures roles == if failed then Dropped(old(roles), RoleKey(session))
                       else old(roles)[RoleKey(session) := Role(allowed, at, StampOf(store.states, session), session)]
    {
      if failed {
        roles := Dropped(roles, RoleKey(session));
        return;
      }
      var stamp := store.GetAuthStateUpdatedAt(session, at);
      roles := roles[RoleKey(session) := Role(allowed, at, stamp, session)];
    }
  }
}
