/** Configuration lookup with a last-known-good fallback: worker/app/runtime_config.py and web/app/lib/runtime-env.ts
    (the same machine), and web/app/lib/proxy-runtime-env.ts (which never writes the environment).

    `present` is the language's own test for a value that is not blank, `unset` the sentinel that stands for an unset
    secret. Key Vault is enabled and nothing else writes the variable. Here lookups of one variable follow one another;
    `RuntimeConfigOverlap` lets them overlap. */
module RuntimeConfig {
  import opened Options

  type Present = string -> bool

  /** What Key Vault answers. */
  datatype Reply = Secret(value: string) | NotFound | Fault

  /** What a lookup gives its caller. */
  datatype Answer = Value(value: string) | Default | Raise

  /** What is kept for one variable: the process environment and the last-known-good entry. */
  datatype Cell = Cell(env: Option<string>, good: Option<string>)

  predicate Usable(present: Present, unset: string, r: Reply) {
    r.Secret? && r.value != unset && present(r.value)
  }

  /** An answer that says the secret is not set. */
  predicate Absent(present: Present, unset: string, r: Reply) {
    !r.Fault? && !Usable(present, unset, r)
  }

  function IfPresent(present: Present, v: Option<string>): Option<string> {
    if v.Some? && present(v.value) then v else None
  }

  /** `_last_known_good.get(name) or (existing if present)`: an empty string is false. */
  function StaleOr(present: Present, good: Option<string>, existing: Option<string>): Option<string> {
    if good.Some? && good.value != "" then good else IfPresent(present, existing)
  }

  function Stale(present: Present, c: Cell): Option<string> {
    StaleOr(present, c.good, c.env)
  }

  // ------------------------------------------------------------------------------- worker and web service

  /** `get_runtime_env` / `getRuntimeEnv` from the vault's answer on; `existing` is the value read before the request.
      */
  function FinishLookup(present: Present, unset: string, required: bool, c: Cell, existing: Option<string>, r: Reply)
    : (Cell, Answer)
  {
    if Usable(present, unset, r) then (Cell(Some(r.value), Some(r.value)), Value(r.value))
    else if !r.Fault? then
      match IfPresent(present, existing)
      case Some(v) => (c.(good := Some(v)), Value(v))
      case None => (Cell(Some(""), None), Default)
    else
      match StaleOr(present, c.good, existing)
      case Some(v) => (c.(good := Some(v)), Value(v))
      case None => (c, if required then Raise else Default)
  }

  /** A whole lookup with no other in between. */
  function Lookup(present: Present, unset: string, required: bool, c: Cell, r: Reply): (Cell, Answer) {
    FinishLookup(present, unset, required, c, c.env, r)
  }

  function State(present: Present, unset: string, required: bool, env: Option<string>, h: seq<Reply>): Cell {
    if h == [] then Cell(env, None)
    else Lookup(present, unset, required, State(present, unset, required, env, h[..|h| - 1]), h[|h| - 1]).0
  }

  /** The answer to the last lookup of history `h`. */
  function AnswerTo(present: Present, unset: string, required: bool, env: Option<string>, h: seq<Reply>): Answer
    requires h != []
  {
    Lookup(present, unset, required, State(present, unset, required, env, h[..|h| - 1]), h[|h| - 1]).1
  }

  /** The latest value the vault ever gave. */
  function LatestUsable(present: Present, unset: string, h: seq<Reply>): Option<string> {
    if h == [] then None
    else if Usable(present, unset, h[|h| - 1]) then Some(h[|h| - 1].value)
    else LatestUsable(present, unset, h[..|h| - 1])
  }

  /** The value is given by reply `i`: a secret that is neither the sentinel nor blank, and no later reply gives one. */
  ghost predicate GivenLast(present: Present, unset: string, h: seq<Reply>, i: nat, v: string) {
    && i < |h| && h[i] == Secret(v) && v != unset && present(v)
    && forall j :: i < j < |h| ==> h[j].NotFound? || h[j].Fault? || h[j].value == unset || !present(h[j].value)
  }

  lemma {:induction false} LatestIsGivenLast(present: Present, unset: string, h: seq<Reply>, v: string)
    ensures LatestUsable(present, unset, h) == Some(v) <==> exists i :: GivenLast(present, unset, h, i, v)
  {
    if h != [] {
      var n := |h| - 1;
      LatestIsGivenLast(present, unset, h[..n], v);
      if Usable(present, unset, h[n]) {
        if h[n].value == v {
          assert GivenLast(present, unset, h, n, v);
        }
      } else {
        if i :| GivenLast(present, unset, h[..n], i, v) {
          assert GivenLast(present, unset, h, i, v);
        }
        if i :| GivenLast(present, unset, h, i, v) {
          assert GivenLast(present, unset, h[..n], i, v);
        }
      }
    }
  }

  /** What history `h` determines: the latest vault value, else the initial environment value. */
  function Known(present: Present, unset: string, env: Option<string>, h: seq<Reply>): Option<string> {
    var latest := LatestUsable(present, unset, h);
    if latest.Some? then latest else IfPresent(present, env)
  }

  lemma {:induction false} StateIsKnown(present: Present, unset: string, required: bool, env: Option<string>,
                                        h: seq<Reply>)
    requires !present("")
    ensures
      var c := State(present, unset, required, env, h);
      && IfPresent(present, c.env) == Known(present, unset, env, h)
      && (c.good.Some? ==> c.good == c.env && present(c.good.value))
  {
    if h != [] {
      StateIsKnown(present, unset, required, env, h[..|h| - 1]);
    }
  }

  /** Each call returns the latest vault value there ever was, else the initial environment value, else the default - or
      the error, for a required variable whose lookup failed. */
  lemma LookupRefinesHistory(present: Present, unset: string, required: bool, env: Option<string>, h: seq<Reply>)
    requires !present("") && h != []
    ensures AnswerTo(present, unset, required, env, h)
            == match Known(present, unset, env, h)
               case Some(v) => Value(v)
               case None => if h[|h| - 1].Fault? && required then Raise else Default
  {
    StateIsKnown(present, unset, required, env, h[..|h| - 1]);
  }

  lemma {:induction false} LatestStays(present: Present, unset: string, h: seq<Reply>, more: seq<Reply>)
    requires LatestUsable(present, unset, h).Some?
    ensures LatestUsable(present, unset, h + more).Some?
  {
    if more == [] {
      assert h + more == h;
    } else {
      LatestStays(present, unset, h, more[..|more| - 1]);
      assert (h + more)[..|h + more| - 1] == h + more[..|more| - 1];
    }
  }

  /** Once a value has been returned no later call loses it, whatever the vault answers. */
  lemma ValueNeverLost(present: Present, unset: string, required: bool, env: Option<string>,
                       h: seq<Reply>, more: seq<Reply>)
    requires !present("") && h != [] && AnswerTo(present, unset, required, env, h).Value?
    ensures AnswerTo(present, unset, required, env, h + more).Value?
  {
    LookupRefinesHistory(present, unset, required, env, h);
    LookupRefinesHistory(present, unset, required, env, h + more);
    if LatestUsable(present, unset, h).Some? {
      LatestStays(present, unset, h, more);
    }
  }

  // ------------------------------------------------------------------------------- proxy

  /** One `getProxyRuntimeEnv`; only the last-known-good entry changes. The environment never does, so what a lookup
      read before the request still holds when the vault answers, and overlapping lookups are in the order of their
      answers. */
  function ProxyLookup(present: Present, unset: string, c: Cell, r: Reply): (Cell, Answer) {
    if Usable(present, unset, r) then (c.(good := Some(r.value)), Value(r.value))
    else if !r.Fault? then
      match IfPresent(present, c.env)
      case Some(v) => (c.(good := Some(v)), Value(v))
      case None => (c.(good := None), Default)
    else
      match Stale(present, c)
      case Some(v) => (c, Value(v))
      case None => (c, Raise)
  }

  function ProxyState(present: Present, unset: string, env: Option<string>, h: seq<Reply>): Cell {
    if h == [] then Cell(env, None)
    else ProxyLookup(present, unset, ProxyState(present, unset, env, h[..|h| - 1]), h[|h| - 1]).0
  }

  function ProxyAnswerTo(present: Present, unset: string, env: Option<string>, h: seq<Reply>): Answer
    requires h != []
  {
    ProxyLookup(present, unset, ProxyState(present, unset, env, h[..|h| - 1]), h[|h| - 1]).1
  }

  /** The replies since the vault last said the secret is not set. */
  function SinceAbsent(present: Present, unset: string, h: seq<Reply>): seq<Reply> {
    if h == [] then []
    else if Absent(present, unset, h[|h| - 1]) then []
    else SinceAbsent(present, unset, h[..|h| - 1]) + [h[|h| - 1]]
  }

  /** What is left begins right after the last answer that the secret is not there, is the sentinel, or is blank. */
  lemma {:induction false} SinceAbsentIsSuffix(present: Present, unset: string, h: seq<Reply>) returns (n: nat)
    ensures n <= |h| && SinceAbsent(present, unset, h) == h[n..]
    ensures forall i :: n <= i < |h| ==> h[i].Fault? || (h[i].Secret? && h[i].value != unset && present(h[i].value))
    ensures n > 0 ==> h[n - 1].NotFound? || (h[n - 1].Secret? && (h[n - 1].value == unset || !present(h[n - 1].value)))
  {
    n := |h|;
    if h != [] && !Absent(present, unset, h[|h| - 1]) {
      n := SinceAbsentIsSuffix(present, unset, h[..|h| - 1]);
      assert h == h[..|h| - 1] + [h[|h| - 1]];
    }
  }

  lemma {:induction false} ProxyKeepsEnv(present: Present, unset: string, env: Option<string>, h: seq<Reply>)
    ensures ProxyState(present, unset, env, h).env == env
  {
    if h != [] {
      ProxyKeepsEnv(present, unset, env, h[..|h| - 1]);
    }
  }

  lemma SinceMore(present: Present, unset: string, env: Option<string>, h: seq<Reply>, r: Reply)
    requires !Absent(present, unset, r)
    ensures
      var since := SinceAbsent(present, unset, h);
      && SinceAbsent(present, unset, h + [r]) == since + [r]
      && Known(present, unset, env, since + [r])
         == if Usable(present, unset, r) then Some(r.value) else Known(present, unset, env, since)
  {
    var since := SinceAbsent(present, unset, h);
    assert (h + [r])[..|h|] == h && (since + [r])[..|since|] == since;
  }

  lemma {:induction false} ProxyStateIsKnown(present: Present, unset: string, env: Option<string>, h: seq<Reply>)
    requires !present("")
    ensures
      var c := ProxyState(present, unset, env, h);
      && c.env == env
      && Stale(present, c) == Known(present, unset, env, SinceAbsent(present, unset, h))
      && (c.good.Some? ==> present(c.good.value))
  {
    if h != [] {
      var n := |h| - 1;
      assert h == h[..n] + [h[n]];
      ProxyKeepsEnv(present, unset, env, h[..n]);
      ProxyStateIsKnown(present, unset, env, h[..n]);
      if !Absent(present, unset, h[n]) {
        SinceMore(present, unset, env, h[..n], h[n]);
      }
    }
  }

  /** The proxy forgets: only the vault values since the secret was last reported unset count. */
  lemma ProxyRefinesHistory(present: Present, unset: string, env: Option<string>, h: seq<Reply>)
    requires !present("") && h != []
    ensures ProxyAnswerTo(present, unset, env, h)
            == match Known(present, unset, env, SinceAbsent(present, unset, h))
               case Some(v) => Value(v)
               case None => if h[|h| - 1].Fault? then Raise else Default
  {
    ProxyStateIsKnown(present, unset, env, h[..|h| - 1]);
    ProxyStateIsKnown(present, unset, env, h);
    var n := |h| - 1;
    if !Absent(present, unset, h[n]) {
      var s := SinceAbsent(present, unset, h[..n]) + [h[n]];
      assert s[..|s| - 1] == SinceAbsent(present, unset, h[..n]);
    }
  }

  lemma {:induction false} SinceAbsentLatest(present: Present, unset: string, h: seq<Reply>)
    ensures
      var since := LatestUsable(present, unset, SinceAbsent(present, unset, h));
      since.Some? ==> since == LatestUsable(present, unset, h)
  {
    if h != [] {
      var n := |h| - 1;
      SinceAbsentLatest(present, unset, h[..n]);
      if !Absent(present, unset, h[n]) {
        var s := SinceAbsent(present, unset, h[..n]) + [h[n]];
        assert s[..|s| - 1] == SinceAbsent(present, unset, h[..n]);
      }
    }
  }

  lemma {:induction false} NoAbsentKeepsAll(present: Present, unset: string, h: seq<Reply>)
    requires forall r :: r in h ==> !Absent(present, unset, r)
    ensures SinceAbsent(present, unset, h) == h
  {
    if h != [] {
      NoAbsentKeepsAll(present, unset, h[..|h| - 1]);
    }
  }

  /** On a history in which the secret is never reported unset the two machines answer alike (a variable the worker
      does not require gets the default where the proxy raises). */
  lemma MachinesAgreeWithoutAbsent(present: Present, unset: string, required: bool, env: Option<string>, h: seq<Reply>)
    requires !present("") && h != [] && forall r :: r in h ==> !Absent(present, unset, r)
    ensures
      var a := AnswerTo(present, unset, required, env, h);
      var b := ProxyAnswerTo(present, unset, env, h);
      a == b || (!required && a.Default? && b.Raise?)
  {
    NoAbsentKeepsAll(present, unset, h);
    LookupRefinesHistory(present, unset, required, env, h);
    ProxyRefinesHistory(present, unset, env, h);
  }

  /** In general their answers agree exactly when the latest vault value, if there is one, was given since the secret
      was last reported unset, or is the initial environment value anyway; and, when there is nothing to give and the
      lookup failed, the variable is one for which the worker raises too. */
  lemma MachinesAgreeIff(present: Present, unset: string, required: bool, env: Option<string>, h: seq<Reply>)
    requires !present("") && h != []
    ensures AnswerTo(present, unset, required, env, h) == ProxyAnswerTo(present, unset, env, h)
            <==> && (|| LatestUsable(present, unset, h).None?
                     || LatestUsable(present, unset, SinceAbsent(present, unset, h)).Some?
                     || LatestUsable(present, unset, h) == IfPresent(present, env))
                 && (required || !h[|h| - 1].Fault? || Known(present, unset, env, h).Some?)
  {
    SinceAbsentLatest(present, unset, h);
    LookupRefinesHistory(present, unset, required, env, h);
    ProxyRefinesHistory(present, unset, env, h);
  }

  /** The history on which they differ: a value, then "not set". The worker keeps the value, the proxy drops it. */
  lemma MachinesDifferAfterAbsent(present: Present, unset: string, required: bool, v: string)
    requires !present("") && present(v) && v != unset
    ensures AnswerTo(present, unset, required, None, [Secret(v), NotFound]) == Value(v)
    ensures ProxyAnswerTo(present, unset, None, [Secret(v), NotFound]) == Default
  {
    var h := [Secret(v), NotFound];
    assert h[..1] == [Secret(v)] && h[..1][..0] == [];
    assert State(present, unset, required, None, h[..1]) == Cell(Some(v), Some(v));
    assert ProxyState(present, unset, None, h[..1]) == Cell(None, Some(v));
  }

  // ------------------------------------------------------------------------------- the process

  function Get(m: map<string, string>, name: string): Option<string> {
    if name in m then Some(m[name]) else None
  }

  /** The module state of runtime_config.py. */
  class RuntimeEnvironment {
    const present: Present
    const unset: string
    const requiredKeys: set<string>
    const manifestKeys: set<string>
    var environ: map<string, string>
    var lastKnownGood: map<string, string>

    constructor (present: Present, unset: string, requiredKeys: set<string>, manifestKeys: set<string>,
                 environ: map<string, string>)
      ensures this.present == present && this.unset == unset && this.requiredKeys == requiredKeys
      ensures this.manifestKeys == manifestKeys && this.environ == environ && this.lastKnownGood == map[]
    {
      this.present, this.unset, this.requiredKeys, this.manifestKeys := present, unset, requiredKeys, manifestKeys;
      this.environ, this.lastKnownGood := environ, map[];
    }

    function CellOf(name: string): Cell
      reads this
    {
      Cell(Get(environ, name), Get(lastKnownGood, name))
    }

    /** `get_runtime_env` after the vault has answered; `existing` is what the variable was before the request. Raising
        is the answer `Raise`. */
    method FinishGetRuntimeEnv(name: string, existing: Option<string>, default: Option<string>, reply: Reply)
      returns (value: Option<string>, raised: bool)
      modifies this
      ensures var (cell, answer) :=
                FinishLookup(present, unset, name in requiredKeys, old(CellOf(name)), existing, reply);
              && CellOf(name) == cell && raised == answer.Raise?
              && value == match answer case Value(v) => Some(v) case Default => default case Raise => None
      ensures forall other :: other != name ==> CellOf(other) == old(CellOf(other))
    {
      raised := false;
      if reply.Fault? {
        var good := Get(lastKnownGood, name);
        var stale := if good.Some? && good.value != "" then good
                     else if existing.Some? && present(existing.value) then existing else None;
        if stale.Some? {
          lastKnownGood := lastKnownGood[name := stale.value];
          value := stale;
        } else if name !in requiredKeys {
          value := default;
        } else {
          value, raised := None, true;
        }
        return;
      }
      if reply.NotFound? || reply.value == unset || !present(reply.value) {
        if existing.Some? && present(existing.value) {
          lastKnownGood := lastKnownGood[name := existing.value];
          value := existing;
          return;
        }
        environ := environ[name := ""];
        lastKnownGood := map k | k in lastKnownGood && k != name :: lastKnownGood[k];
        value := default;
        return;
      }
      environ := environ[name := reply.value];
      lastKnownGood := lastKnownGood[name := reply.value];
      value := Some(reply.value);
    }

    /** `get_runtime_env`, when no other lookup comes in between; `reply` is what `_fetch_secret` would give. */
    method GetRuntimeEnv(name: string, default: Option<string>, vaultEnabled: bool, reply: Reply)
      returns (value: Option<string>, raised: bool)
      modifies this
      ensures vaultEnabled && name in manifestKeys ==>
                var (cell, answer) := Lookup(present, unset, name in requiredKeys, old(CellOf(name)), reply);
                && CellOf(name) == cell && raised == answer.Raise?
                && value == match answer case Value(v) => Some(v) case Default => default case Raise => None
      ensures !vaultEnabled || name !in manifestKeys ==>
                && CellOf(name) == old(CellOf(name)) && !raised
                && value == if name in environ then Some(environ[name]) else default
      ensures forall other :: other != name ==> CellOf(other) == old(CellOf(other))
    {
      var existing := Get(environ, name);
      raised := false;
      if !vaultEnabled || name !in manifestKeys {
        value := if existing.Some? then existing else default;
        return;
      }
      value, raised := FinishGetRuntimeEnv(name, existing, default, reply);
    }
  }

  /** The module state of proxy-runtime-env.ts. */
  class ProxyEnvironment {
    const present: Present
    const unset: string
    const environ: map<string, string>
    var proxyLastKnownGood: map<string, string>

    constructor (present: Present, unset: string, environ: map<string, string>)
      ensures this.present == present && this.unset == unset && this.environ == environ && proxyLastKnownGood == map[]
    {
      this.present, this.unset, this.environ, this.proxyLastKnownGood := present, unset, environ, map[];
    }

    function CellOf(name: string): Cell
      reads this
    {
      Cell(Get(environ, name), Get(proxyLastKnownGood, name))
    }

    /** `fallbackProxyRuntimeEnv` */
    method Fallback(name: string, existing: Option<string>) returns (value: Option<string>)
      requires existing == Get(environ, name)
      modifies this
      ensures value == IfPresent(present, existing)
      ensures CellOf(name) == Cell(existing, value)
      ensures forall other :: other != name ==> CellOf(other) == old(CellOf(other))
    {
      if existing.Some? && present(existing.value) {
        proxyLastKnownGood := proxyLastKnownGood[name := existing.value];
        return existing;
      }
      proxyLastKnownGood := map k | k in proxyLastKnownGood && k != name :: proxyLastKnownGood[k];
      return None;
    }

    method GetProxyRuntimeEnv(name: string, vaultEnabled: bool, reply: Reply)
      returns (value: Option<string>, raised: bool)
      modifies this
      ensures vaultEnabled ==>
                var (cell, answer) := ProxyLookup(present, unset, old(CellOf(name)), reply);
                && CellOf(name) == cell && raised == answer.Raise?
                && value == match answer case Value(v) => Some(v) case _ => None
      ensures !vaultEnabled ==> CellOf(name) == old(CellOf(name)) && !raised && value == Get(environ, name)
      ensures forall other :: other != name ==> CellOf(other) == old(CellOf(other))
    {
      var existing := Get(environ, name);
      raised := false;
      if !vaultEnabled {
        value := existing;
        return;
      }
      if reply.Fault? {
        var good := Get(proxyLastKnownGood, name);
        value := if good.Some? && good.value != "" then good
                 else if existing.Some? && present(existing.value) then existing else None;
        raised := value.None?;
        return;
      }
      if reply.NotFound? || reply.value == unset || !present(reply.value) {
        value := Fallback(name, existing);
        return;
      }
      proxyLastKnownGood := proxyLastKnownGood[name := reply.value];
      value := Some(reply.value);
    }
  }
}
