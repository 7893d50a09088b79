/** The policy manager of worker/app/conditional_access.py over a store of Conditional Access policies. Each call is
    atomic, and a call Graph refuses has no effect. */
module ConditionalAccess {
  import opened Options

  type PolicyId = nat
  type User = string
  type Bot = string

  datatype Policy = Policy(displayName: string, includeUsers: seq<User>, application: string)
  type Store = map<PolicyId, Policy>

  const POLICY_PREFIX := "Sentinel-Block-"

  function PolicyDisplayName(bot: Bot): string {
    POLICY_PREFIX + bot
  }

  lemma NamesAreDistinct(a: Bot, b: Bot)
    ensures PolicyDisplayName(a) == PolicyDisplayName(b) ==> a == b
  {
    assert PolicyDisplayName(a)[|POLICY_PREFIX|..] == a && PolicyDisplayName(b)[|POLICY_PREFIX|..] == b;
  }

  predicate IsFor(p: Policy, bot: Bot) {
    p.displayName == PolicyDisplayName(bot)
  }

  /** Whom the store blocks for `bot`: the union over all its policies. */
  ghost function Blocked(store: Store, bot: Bot): set<User> {
    set i, u | i in store && IsFor(store[i], bot) && u in store[i].includeUsers :: u
  }

  predicate NoDuplicates(users: seq<User>) {
    forall i, j :: 0 <= i < j < |users| ==> users[i] != users[j]
  }

  /** Each bot has at most one policy, and its user list is neither empty nor repetitive. */
  ghost predicate Valid(store: Store) {
    && (forall i, j, b :: i in store && j in store && IsFor(store[i], b) && IsFor(store[j], b) ==> i == j)
    && forall i, b :: i in store && IsFor(store[i], b) ==>
         store[i].includeUsers != [] && NoDuplicates(store[i].includeUsers)
  }

  /** A policy exists exactly when someone is blocked. */
  lemma PolicyIffBlocked(store: Store, bot: Bot)
    requires Valid(store)
    ensures (exists i :: i in store && IsFor(store[i], bot)) <==> Blocked(store, bot) != {}
  {
    if exists i :: i in store && IsFor(store[i], bot) {
      var i :| i in store && IsFor(store[i], bot);
      assert store[i].includeUsers[0] in store[i].includeUsers;
      assert store[i].includeUsers[0] in Blocked(store, bot);
    }
  }

  /** `[u for u in users if u != user]` */
  function Without(users: seq<User>, user: User): (r: seq<User>)
    ensures forall u :: u in r <==> u in users && u != user
    ensures NoDuplicates(users) ==> NoDuplicates(r)
  {
    if users == [] then []
    else
      var rest := Without(users[1..], user);
      assert users == [users[0]] + users[1..];
      assert NoDuplicates(users) ==> users[0] !in users[1..];
      if users[0] == user then rest else [users[0]] + rest
  }

  datatype Call = Block(bot: Bot, user: User, accepted: bool) | Unblock(bot: Bot, user: User, accepted: bool)

  ghost predicate Exists(store: Store, bot: Bot) {
    exists i :: i in store && IsFor(store[i], bot)
  }

  function SetUsers(store: Store, i: PolicyId, users: seq<User>): Store
    requires i in store
  {
    store[i := store[i].(includeUsers := users)]
  }

  function Remove(store: Store, i: PolicyId): Store {
    map k | k in store && k != i :: store[k]
  }

  /** The store `after` a call: the branches of `block_user` and `unblock_user`, with `i` the policy found or created.
      `accepted` is false when Graph refuses a request or the application id is not configured. */
  ghost predicate Effect(before: Store, call: Call, after: Store, i: PolicyId, app: string) {
    if !call.accepted then after == before
    else if Exists(before, call.bot) then
      && i in before && IsFor(before[i], call.bot)
      && var users := before[i].includeUsers;
         if call.Block? then
           if call.user in users then after == before else after == SetUsers(before, i, users + [call.user])
         else if call.user !in users then after == before
         else if Without(users, call.user) == [] then after == Remove(before, i)
         else after == SetUsers(before, i, Without(users, call.user))
    else if call.Block? then
      i !in before && after == before[i := Policy(PolicyDisplayName(call.bot), [call.user], app)]
    else after == before
  }

  lemma OthersAreForeign(store: Store, i: PolicyId, bot: Bot, b: Bot)
    requires Valid(store) && i in store && IsFor(store[i], bot)
    ensures b != bot ==> !IsFor(store[i], b)
    ensures Blocked(store, bot) == set u | u in store[i].includeUsers
  {
    NamesAreDistinct(bot, b);
  }

  lemma SetUsersRefines(store: Store, i: PolicyId, bot: Bot, users: seq<User>, b: Bot)
    requires Valid(store) && i in store && IsFor(store[i], bot) && users != [] && NoDuplicates(users)
    ensures Valid(SetUsers(store, i, users))
    ensures Blocked(SetUsers(store, i, users), b) == if b == bot then set u | u in users else Blocked(store, b)
  {
    var after := SetUsers(store, i, users);
    assert forall k, c :: k in after && IsFor(after[k], c) ==> k in store && IsFor(store[k], c);
    OthersAreForeign(store, i, bot, b);
    OthersAreForeign(after, i, bot, b);
    assert forall k :: k in after && k != i ==> after[k] == store[k];
  }

  lemma RemoveRefines(store: Store, i: PolicyId, bot: Bot, b: Bot)
    requires Valid(store) && i in store && IsFor(store[i], bot)
    ensures Valid(Remove(store, i))
    ensures Blocked(Remove(store, i), b) == if b == bot then {} else Blocked(store, b)
  {
    var after := Remove(store, i);
    assert forall k, c :: k in after && IsFor(after[k], c) ==> k in store && IsFor(store[k], c);
    OthersAreForeign(store, i, bot, b);
  }

  lemma CreateRefines(store: Store, i: PolicyId, bot: Bot, user: User, app: string, b: Bot)
    requires Valid(store) && i !in store && !Exists(store, bot)
    ensures
      var after := store[i := Policy(PolicyDisplayName(bot), [user], app)];
      Valid(after) && Blocked(after, b) == if b == bot then {user} else Blocked(store, b)
  {
    var after := store[i := Policy(PolicyDisplayName(bot), [user], app)];
    forall c ensures IsFor(after[i], c) <==> c == bot { NamesAreDistinct(bot, c); }
    assert Valid(after);
    assert forall k :: k in store ==> after[k] == store[k] && !IsFor(store[k], bot);
    if b == bot {
      OthersAreForeign(after, i, bot, b);
    } else {
      assert Blocked(after, b) == Blocked(store, b);
    }
  }

  /** Every call refines adding to, or removing from, one bot's set, keeps the store valid, and leaves every policy that
      is not this bot's - other bots' and foreign ones - as it was. */
  lemma CallRefines(before: Store, call: Call, after: Store, i: PolicyId, app: string, b: Bot)
    requires Valid(before) && Effect(before, call, after, i, app)
    ensures Valid(after)
    ensures Blocked(after, b) == Spec(Blocked(before, b), call, b)
    ensures forall k :: k in before && !IsFor(before[k], call.bot) ==> k in after && after[k] == before[k]
    ensures forall k :: k in after && !IsFor(after[k], call.bot) ==> k in before
    ensures forall k :: k in after ==> after[k].application == if k in before then before[k].application else app
  {
    if call.accepted && after != before {
      if Exists(before, call.bot) {
        var users := before[i].includeUsers;
        OthersAreForeign(before, i, call.bot, b);
        if call.Block? {
          SetUsersRefines(before, i, call.bot, users + [call.user], b);
        } else if Without(users, call.user) == [] {
          RemoveRefines(before, i, call.bot, b);
          assert forall u :: u in users ==> u == call.user;
        } else {
          SetUsersRefines(before, i, call.bot, Without(users, call.user), b);
        }
      } else {
        CreateRefines(before, i, call.bot, call.user, app, b);
      }
    } else if call.accepted && Exists(before, call.bot) {
      OthersAreForeign(before, i, call.bot, b);
    }
  }

  /** The abstract effect of a call on one bot's set. */
  function Spec(users: set<User>, call: Call, b: Bot): set<User> {
    if !call.accepted || call.bot != b then users
    else if call.Block? then users + {call.user} else users - {call.user}
  }

  function SpecRun(users: set<User>, calls: seq<Call>, b: Bot): set<User> {
    if calls == [] then users else Spec(SpecRun(users, calls[..|calls| - 1], b), calls[|calls| - 1], b)
  }

  ghost predicate Happens(before: Store, call: Call, after: Store) {
    exists i, app :: Effect(before, call, after, i, app)
  }

  ghost predicate IsRun(stores: seq<Store>, calls: seq<Call>) {
    && |stores| == |calls| + 1
    && forall n :: 0 <= n < |calls| ==> Happens(stores[n], calls[n], stores[n + 1])
  }

  /** Over any sequence of calls the store is the map from bots to blocked users. */
  lemma {:induction false} RunRefines(stores: seq<Store>, calls: seq<Call>, b: Bot, n: nat)
    requires IsRun(stores, calls) && Valid(stores[0]) && n <= |calls|
    ensures Valid(stores[n])
    ensures Blocked(stores[n], b) == SpecRun(Blocked(stores[0], b), calls[..n], b)
  {
    if n > 0 {
      RunRefines(stores, calls, b, n - 1);
      var i, app :| Effect(stores[n - 1], calls[n - 1], stores[n], i, app);
      CallRefines(stores[n - 1], calls[n - 1], stores[n], i, app, b);
      assert calls[..n][..n - 1] == calls[..n - 1];
    }
  }

  /** The user is on the list of policy `i`. */
  predicate Listed(store: Store, i: PolicyId, user: User) {
    i in store && user in store[i].includeUsers
  }

  lemma ListedIffBlocked(store: Store, i: PolicyId, bot: Bot, user: User)
    requires Valid(store) && i in store && IsFor(store[i], bot)
    ensures Listed(store, i, user) <==> user in Blocked(store, bot)
  {
    OthersAreForeign(store, i, bot, bot);
  }

  lemma BlockedGrows(store: Store, i: PolicyId, bot: Bot, p: Policy, user: User)
    requires i in store ==> IsFor(store[i], bot) && store[i].includeUsers + [user] == p.includeUsers
    requires i !in store ==> p.includeUsers == [user]
    requires IsFor(p, bot)
    ensures Blocked(store[i := p], bot) == Blocked(store, bot) + {user}
  {
    var after := store[i := p];
    forall u | u in Blocked(store, bot) + {user} ensures u in Blocked(after, bot) {
      if u in p.includeUsers {
        assert IsFor(after[i], bot);
      } else {
        var k :| k in store && IsFor(store[k], bot) && u in store[k].includeUsers;
        assert after[k] == store[k];
      }
    }
    forall u | u in Blocked(after, bot) ensures u in Blocked(store, bot) + {user} {
      var k :| k in after && IsFor(after[k], bot) && u in after[k].includeUsers;
      assert k != i ==> k in store && after[k] == store[k];
    }
  }

  datatype CAResult = CAResult(success: bool, policyId: Option<PolicyId>)

  /** The manager, with the remote store it reads and writes. `refused` says whether Graph refuses the next read or
      write, `created` which id it would give a new policy. */
  class ConditionalAccessManager {
    var policies: Store
    const copilotAppId: string

    constructor (policies: Store, copilotAppId: string)
      ensures this.policies == policies && this.copilotAppId == copilotAppId
    {
      this.policies, this.copilotAppId := policies, copilotAppId;
    }

    /** The first match Graph lists; which one, if there were several, is not determined. */
    method FindPolicyForBot(bot: Bot) returns (found: Option<PolicyId>)
      ensures found.None? ==> !Exists(policies, bot)
      ensures found.Some? ==> found.value in policies && IsFor(policies[found.value], bot)
    {
      var ids := policies.Keys;
      while ids != {}
        invariant ids <= policies.Keys
        invariant forall i :: i in policies && i !in ids ==> !IsFor(policies[i], bot)
        decreases |ids|
      {
        var i :| i in ids;
        if IsFor(policies[i], bot) {
          return Some(i);
        }
        ids := ids - {i};
      }
      found := None;
    }

    /** `block_user`: it succeeds exactly when the application is configured, the read is not refused, and neither is
        the write, if one is needed; then the user is added to the bot's set, and the policy is named. Otherwise nothing
        happens. */
    method BlockUser(bot: Bot, user: User, readRefused: bool, writeRefused: bool, created: PolicyId)
      returns (r: CAResult, ghost i: PolicyId)
      requires created !in policies
      modifies this
      ensures Effect(old(policies), Block(bot, user, r.success), policies, i, copilotAppId)
      ensures copilotAppId != "" && !readRefused ==>
                if Exists(old(policies), bot) then i in old(policies) && IsFor(old(policies)[i], bot) else i == created
      ensures r.success
              <==> copilotAppId != "" && !readRefused && (!writeRefused || Listed(old(policies), i, user))
      ensures r.success && Valid(old(policies)) ==>
                (Listed(old(policies), i, user) <==> user in Blocked(old(policies), bot))
      ensures Blocked(policies, bot) == Blocked(old(policies), bot) + if r.success then {user} else {}
      ensures r.policyId == if r.success then Some(i) else None
      ensures r.success ==> i in policies && IsFor(policies[i], bot) && user in policies[i].includeUsers
      ensures !r.success ==> policies == old(policies)
    {
      i := created;
      if copilotAppId == "" || readRefused {
        return CAResult(false, None), i;
      }
      var existing := FindPolicyForBot(bot);
      if existing.Some? {
        var policyId := existing.value;
        var currentUsers := policies[policyId].includeUsers;
        i := policyId;
        if Valid(policies) {
          ListedIffBlocked(policies, i, bot, user);
        }
        if user in currentUsers {
          return CAResult(true, existing), i;
        }
        if writeRefused {
          return CAResult(false, None), i;
        }
        BlockedGrows(policies, i, bot, policies[i].(includeUsers := currentUsers + [user]), user);
        policies := SetUsers(policies, policyId, currentUsers + [user]);
        assert IsFor(policies[i], bot);
        return CAResult(true, existing), i;
      }
      if writeRefused {
        return CAResult(false, None), i;
      }
      BlockedGrows(policies, i, bot, Policy(PolicyDisplayName(bot), [user], copilotAppId), user);
      policies := policies[created := Policy(PolicyDisplayName(bot), [user], copilotAppId)];
      assert IsFor(policies[i], bot);
      r := CAResult(true, Some(created));
    }

    /** `unblock_user`: it succeeds exactly when the read is not refused, and neither is the write, if one is needed;
        then the user is taken out of the bot's set, and the policy is named if it is left. Otherwise nothing happens.
        */
    method UnblockUser(bot: Bot, user: User, readRefused: bool, writeRefused: bool)
      returns (r: CAResult, ghost i: PolicyId)
      modifies this
      ensures Effect(old(policies), Unblock(bot, user, r.success), policies, i, copilotAppId)
      ensures !readRefused && Exists(old(policies), bot) ==> i in old(policies) && IsFor(old(policies)[i], bot)
      ensures r.success
              <==> !readRefused && (!writeRefused || !(Exists(old(policies), bot) && Listed(old(policies), i, user)))
      ensures Valid(old(policies)) ==>
                Blocked(policies, bot) == Blocked(old(policies), bot) - if r.success then {user} else {}
      ensures r.success && Valid(old(policies)) ==> (r.policyId.Some? <==> Exists(policies, bot))
      ensures r.policyId.Some? ==> r.success && r.policyId == Some(i) && i in policies && IsFor(policies[i], bot)
      ensures !r.success ==> policies == old(policies)
    {
      i := 0;
      if readRefused {
        return CAResult(false, None), i;
      }
      var existing := FindPolicyForBot(bot);
      if existing.None? {
        return CAResult(true, None), i;
      }
      var policyId := existing.value;
      var currentUsers := policies[policyId].includeUsers;
      i := policyId;
      if Valid(policies) {
        OthersAreForeign(policies, i, bot, bot);
      }
      if user !in currentUsers {
        return CAResult(true, existing), i;
      }
      var remaining := Without(currentUsers, user);
      if writeRefused {
        return CAResult(false, None), i;
      }
      if Valid(policies) {
        CallRefines(policies, Unblock(bot, user, true),
                    if remaining == [] then Remove(policies, i) else SetUsers(policies, i, remaining), i, copilotAppId,
                    bot);
      }
      if remaining == [] {
        policies := Remove(policies, policyId);
        return CAResult(true, None), i;
      }
      policies := SetUsers(policies, policyId, remaining);
      assert IsFor(policies[i], bot);
      r := CAResult(true, existing);
    }
  }
}
