/** Two runs at the edge of what the delegated caches promise. */
module DelegatedAuthWitnesses {
  import opened Options
  import opened DelegatedAuth
  import opened DelegatedAuthTheorems

  const SESSION := Session("oid-1", "")
  const KEY := ByOid("oid-1")

  /** The state before anyone has signed in. */
  const START := State(0, map[], map[], map[], map[], map[])

  function Signed(stamp: Time): AuthStates {
    map[KEY := Auth(Some("r"), stamp)]
  }

  lemma {:induction false} Extend(states: seq<State>, steps: seq<Step>, e: Step)
    requires IsRun(states, steps) && Can(states[|steps|], e.at, e.event)
    ensures IsRun(states + [Do(states[|steps|], e.at, e.event)], steps + [e])
  {
  }

  /** Signed in, and waiting for a refreshed token. */
  lemma AfterSignIn(scopes: Scopes, forRoles: bool) returns (states: seq<State>, steps: seq<Step>)
    requires forRoles ==> scopes == GRAPH_SCOPE
    ensures IsRun(states, steps) && |steps| <= 3
    ensures states[|steps|] == State(3, Signed(1), map[], map[],
                                     map[0 := Minting(SESSION, scopes, "r", forRoles)], map[1 := KEY])
  {
    states, steps := [START], [];
    var signedIn := State(1, map[KEY := Auth(Some("r"), 1)], map[], map[], map[], map[1 := KEY]);
    assert Do(START, 1, SignIn(SESSION, Some("r"))) == signedIn;
    Extend(states, steps, Step(1, SignIn(SESSION, Some("r"))));
    states, steps := states + [signedIn], steps + [Step(1, SignIn(SESSION, Some("r")))];
    if forRoles {
      var missed := signedIn.(now := 2, requests := map[0 := RoleMissed(SESSION)]);
      assert Do(signedIn, 2, AskRole(0, SESSION)) == missed;
      Extend(states, steps, Step(2, AskRole(0, SESSION)));
      states, steps := states + [missed], steps + [Step(2, AskRole(0, SESSION))];
      Extend(states, steps, Step(3, AskRoleToken(0)));
      assert Pruned(missed.states, 3) == missed.states;
      states, steps := states + [Do(missed, 3, AskRoleToken(0))], steps + [Step(3, AskRoleToken(0))];
    } else {
      var ask := AskToken(0, SESSION, scopes);
      Extend(states, steps, Step(3, ask));
      assert Pruned(signedIn.states, 3) == signedIn.states;
      states, steps := states + [Do(signedIn, 3, ask)], steps + [Step(3, ask)];
    }
  }

  /** A token whose recorded expiry is zero is served however long ago that was. */
  lemma ZeroExpiryIsServed(scopes: Scopes) returns (states: seq<State>, steps: seq<Step>)
    ensures IsRun(states, steps) && |steps| > 0
    ensures
      var n := |steps| - 1;
      && JustServed(states[n], states[n + 1], 1)
      && states[n + 1].requests[1].token.expiresAt == 0 < states[n + 1].now
  {
    states, steps := AfterSignIn(scopes, false);
    var minting := states[|steps|];
    var token := Token("t", 0, Some(4));
    var has := HasToken(SESSION, scopes, token, false, false);
    var minted := State(4, Signed(4), map[(KEY, scopes) := token], map[], map[0 := has], map[1 := KEY, 4 := KEY]);
    assert Saved(minting.states, SESSION, Some("r"), 4) == Signed(4);
    assert Do(minting, 4, Minted(0, "t", None, Some(0))) == minted;
    Extend(states, steps, Step(4, Minted(0, "t", None, Some(0))));
    states, steps := states + [minted], steps + [Step(4, Minted(0, "t", None, Some(0)))];
    var ask := AskToken(1, SESSION, scopes);
    assert Pruned(minted.states, 5) == minted.states;
    var t := Do(minted, 5, ask);
    assert t.requests[1] == HasToken(SESSION, scopes, token, true, false);
    Extend(states, steps, Step(5, ask));
    states, steps := states + [t], steps + [Step(5, ask)];
  }

  /** A sign-out while the directory is asked: the roles are written with no stamp, and the signed-out identity is
      granted them from the cache. */
  lemma RoleServedAfterSignOut() returns (states: seq<State>, steps: seq<Step>)
    ensures IsRun(states, steps) && |steps| > 4 && !Uninterrupted(states, steps, RoleKey(SESSION))
    ensures
      var n := |steps| - 1;
      && steps[n - 3].event == SignOut(SESSION) && KEY !in states[n + 1].states
      && JustGranted(states[n], states[n + 1], 1) && states[n + 1].requests[1].session == SESSION
      && states[n + 1].requests[1].role.allowed
  {
    states, steps := RolesWrittenSignedOut();
    var written := states[|steps|];
    var role := written.roles["oid-1"];
    var checking := written.(now := 7, requests := written.requests[1 := Checking(SESSION, role)]);
    assert Do(written, 7, AskRole(1, SESSION)) == checking;
    Extend(states, steps, Step(7, AskRole(1, SESSION)));
    states, steps := states + [checking], steps + [Step(7, AskRole(1, SESSION))];
    var check := CheckRole(1, 900000);
    var t := Do(checking, 8, check);
    assert t.requests[1] == HasRole(SESSION, role);
    Extend(states, steps, Step(8, check));
    var i := |steps| - 2;
    states, steps := states + [t], steps + [Step(8, check)];
    assert !WritesWithState(states[i], steps[i], RoleKey(SESSION));
  }

  lemma RolesWrittenSignedOut() returns (states: seq<State>, steps: seq<Step>)
    ensures IsRun(states, steps) && |steps| > 1
    ensures steps[|steps| - 2].event == SignOut(SESSION)
    ensures !WritesWithState(states[|steps| - 1], steps[|steps| - 1], RoleKey(SESSION))
    ensures var s := states[|steps|];
            && s.now == 6 && s.states == map[] && 1 !in s.requests
            && s.roles == map["oid-1" := Role(true, 6, None, SESSION)]
  {
    states, steps := AfterSignIn(GRAPH_SCOPE, true);
    var minting := states[|steps|];
    var token := Token("t", 9999999, Some(4));
    var has := HasToken(SESSION, GRAPH_SCOPE, token, false, true);
    var minted := State(4, Signed(4), map[(KEY, GRAPH_SCOPE) := token], map[], map[0 := has], map[1 := KEY, 4 := KEY]);
    var mint := Minted(0, "t", None, Some(9999999));
    assert Saved(minting.states, SESSION, Some("r"), 4) == Signed(4);
    assert Do(minting, 4, mint) == minted;
    Extend(states, steps, Step(4, mint));
    states, steps := states + [minted], steps + [Step(4, mint)];
    var gone := minted.(now := 5, states := map[]);
    assert Do(minted, 5, SignOut(SESSION)) == gone;
    Extend(states, steps, Step(5, SignOut(SESSION)));
    states, steps := states + [gone], steps + [Step(5, SignOut(SESSION))];
    var write := GraphAnswered(0, true);
    var t := Do(gone, 6, write);
    assert Pruned(gone.states, 6) == map[];
    Extend(states, steps, Step(6, write));
    states, steps := states + [t], steps + [Step(6, write)];
  }
}
