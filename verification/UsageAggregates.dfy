/** Prompt aggregation and the replacement of stored aggregates in worker/app/jobs/copilot_usage_sync.py. */
module UsageAggregates {
  import opened Options

  type Time = int          // microseconds, UTC
  const HOUR: int := 3600000000
  const SECOND: int := 1000000

  function FloorTo(t: Time, unit: int): (r: Time)
    requires unit > 0
    ensures r <= t < r + unit
  {
    (t / unit) * unit
  }

  /** An interaction, its fields already picked and cleaned; an empty text is a missing one. */
  datatype Interaction = Interaction(userPrompt: bool, createdAt: Option<Time>, sourceApp: string, appClass: string,
                                     conversationType: string, contextType: string, locale: string,
                                     requestId: string, sessionId: string)

  /** The seven-part conflict key. */
  datatype Key = Key(bucketStartUtc: Time, entraUserId: string, sourceApp: string, appClass: string,
                     conversationType: string, contextType: string, locale: string)

  datatype User = User(entraUserId: string, userPrincipalName: string, displayName: string, department: string,
                       officeLocation: string)

  datatype Aggregate = Aggregate(user: User, promptCount: nat, requestCount: nat, sessionCount: nat)

  predicate Dated(i: Interaction) {
    i.userPrompt && i.createdAt.Some?
  }

  function KeyFor(u: User, i: Interaction): Key
    requires Dated(i)
  {
    Key(FloorTo(i.createdAt.value, HOUR), u.entraUserId, i.sourceApp, i.appClass, i.conversationType, i.contextType,
        i.locale)
  }

  predicate Hits(u: User, i: Interaction, k: Key) {
    Dated(i) && KeyFor(u, i) == k
  }

  // ------------------------------------------------------------------------------- what a call should count

  function DatedPrompts(xs: seq<Interaction>): nat {
    if xs == [] then 0 else DatedPrompts(xs[..|xs| - 1]) + if Dated(xs[|xs| - 1]) then 1 else 0
  }

  function PromptsOf(u: User, xs: seq<Interaction>, k: Key): nat {
    if xs == [] then 0 else PromptsOf(u, xs[..|xs| - 1], k) + if Hits(u, xs[|xs| - 1], k) then 1 else 0
  }

  function RequestIds(u: User, xs: seq<Interaction>, k: Key): (r: set<string>)
    ensures |r| <= PromptsOf(u, xs, k)
  {
    if xs == [] then {}
    else
      var i := xs[|xs| - 1];
      RequestIds(u, xs[..|xs| - 1], k) + if Hits(u, i, k) && i.requestId != "" then {i.requestId} else {}
  }

  function SessionIds(u: User, xs: seq<Interaction>, k: Key): (r: set<string>)
    ensures |r| <= PromptsOf(u, xs, k)
  {
    if xs == [] then {}
    else
      var i := xs[|xs| - 1];
      SessionIds(u, xs[..|xs| - 1], k) + if Hits(u, i, k) && i.sessionId != "" then {i.sessionId} else {}
  }

  lemma FloorDivides(t: Time)
    ensures FloorTo(t, HOUR) % 3600000000 == 0
  {
    assert FloorTo(t, HOUR) == (t / 3600000000) * 3600000000;
  }

  lemma FloorIsUnique(t: Time, bucket: Time)
    requires bucket % 3600000000 == 0 && bucket <= t < bucket + 3600000000
    ensures FloorTo(t, HOUR) == bucket
  {
    assert bucket == (bucket / 3600000000) * 3600000000;
    assert t / 3600000000 == bucket / 3600000000;
  }

  /** A prompt counts for a key exactly when it is a user's prompt, is dated within the hour that begins at the key's
      bucket, is of the key's user, and agrees with its five texts. */
  lemma HitsIff(u: User, i: Interaction, k: Key)
    ensures Hits(u, i, k)
            <==> && i.userPrompt && i.createdAt.Some? && k.bucketStartUtc % 3600000000 == 0
                 && k.bucketStartUtc <= i.createdAt.value < k.bucketStartUtc + 3600000000
                 && k.entraUserId == u.entraUserId && k.sourceApp == i.sourceApp && k.appClass == i.appClass
                 && k.conversationType == i.conversationType && k.contextType == i.contextType && k.locale == i.locale
  {
    if i.createdAt.Some? {
      FloorDivides(i.createdAt.value);
      if k.bucketStartUtc % 3600000000 == 0
         && k.bucketStartUtc <= i.createdAt.value < k.bucketStartUtc + 3600000000 {
        FloorIsUnique(i.createdAt.value, k.bucketStartUtc);
      }
    }
  }

  /** The prompts of a key are counted by their places in the list, so equal ones count each. */
  lemma {:induction false} PromptsAreCounted(u: User, xs: seq<Interaction>, k: Key)
    ensures PromptsOf(u, xs, k) == |set n | 0 <= n < |xs| && Hits(u, xs[n], k)|
  {
    var places := set n | 0 <= n < |xs| && Hits(u, xs[n], k);
    if xs != [] {
      var m := |xs| - 1;
      PromptsAreCounted(u, xs[..m], k);
      var before := set n | 0 <= n < m && Hits(u, xs[..m][n], k);
      assert places == before + if Hits(u, xs[m], k) then {m} else {};
    }
  }

  lemma {:induction false} DatedAreCounted(xs: seq<Interaction>)
    ensures DatedPrompts(xs) == |set n | 0 <= n < |xs| && xs[n].userPrompt && xs[n].createdAt.Some?|
  {
    var places := set n | 0 <= n < |xs| && xs[n].userPrompt && xs[n].createdAt.Some?;
    if xs != [] {
      var m := |xs| - 1;
      DatedAreCounted(xs[..m]);
      var before := set n | 0 <= n < m && xs[..m][n].userPrompt && xs[..m][n].createdAt.Some?;
      assert places == before + if Dated(xs[m]) then {m} else {};
    }
  }

  /** The distinct request ids, the empty one aside, of the dated prompts with key `k`. */
  function DistinctRequests(u: User, xs: seq<Interaction>, k: Key): set<string> {
    set i | i in xs && Hits(u, i, k) && i.requestId != "" :: i.requestId
  }

  function DistinctSessions(u: User, xs: seq<Interaction>, k: Key): set<string> {
    set i | i in xs && Hits(u, i, k) && i.sessionId != "" :: i.sessionId
  }

  lemma {:induction false} RequestsAreDistinct(u: User, xs: seq<Interaction>, k: Key)
    ensures RequestIds(u, xs, k) == DistinctRequests(u, xs, k)
  {
    if xs != [] {
      var before, i := xs[..|xs| - 1], xs[|xs| - 1];
      RequestsAreDistinct(u, before, k);
      assert forall j :: j in xs <==> j in before || j == i;
    }
  }

  lemma {:induction false} SessionsAreDistinct(u: User, xs: seq<Interaction>, k: Key)
    ensures SessionIds(u, xs, k) == DistinctSessions(u, xs, k)
  {
    if xs != [] {
      var before, i := xs[..|xs| - 1], xs[|xs| - 1];
      SessionsAreDistinct(u, before, k);
      assert forall j :: j in xs <==> j in before || j == i;
    }
  }

  lemma IdsAreDistinct(u: User, xs: seq<Interaction>, k: Key)
    ensures RequestIds(u, xs, k) == DistinctRequests(u, xs, k)
    ensures SessionIds(u, xs, k) == DistinctSessions(u, xs, k)
  {
    RequestsAreDistinct(u, xs, k);
    SessionsAreDistinct(u, xs, k);
  }

  function Max(a: nat, b: nat): nat {
    if a < b then b else a
  }

  /** A row once its ids are known: the second loop's body. */
  function Settled(row: Aggregate, requests: set<string>, sessions: set<string>): Aggregate {
    row.(requestCount := if requests != {} then Max(row.requestCount, |requests|)
                         else if row.requestCount == 0 then row.promptCount else row.requestCount,
         sessionCount := if sessions != {} then Max(row.sessionCount, |sessions|)
                         else if row.sessionCount == 0 && row.promptCount > 0 then 1 else row.sessionCount)
  }

  predicate RowOk(row: Aggregate) {
    1 <= row.requestCount <= row.promptCount && 1 <= row.sessionCount <= row.promptCount
  }

  /** The row of key `k` before the call, or the empty one it starts from. */
  function RowBefore(rows: map<Key, Aggregate>, u: User, k: Key): Aggregate {
    if k in rows then rows[k] else Aggregate(u, 0, 0, 0)
  }

  function Counted(rows: map<Key, Aggregate>, u: User, xs: seq<Interaction>, k: Key): Aggregate {
    var row := RowBefore(rows, u, k);
    row.(promptCount := row.promptCount + PromptsOf(u, xs, k))
  }

  /** What one call makes of the row of key `k`. */
  function After(rows: map<Key, Aggregate>, u: User, xs: seq<Interaction>, k: Key): Aggregate {
    Settled(Counted(rows, u, xs, k), RequestIds(u, xs, k), SessionIds(u, xs, k))
  }

  lemma AfterOk(rows: map<Key, Aggregate>, u: User, xs: seq<Interaction>, k: Key)
    requires k in rows ==> RowOk(rows[k])
    requires k in rows || PromptsOf(u, xs, k) > 0
    ensures RowOk(After(rows, u, xs, k))
  {
  }

  /** What a call makes of a row, in full. A key that is new counts its prompts; its requests are the distinct ids if
      there are any, else the prompts; its sessions are the distinct ids if there are any, else one. A row that was
      there gains the prompts, and a greater number of ids replaces its own. */
  ghost predicate CountsIds(rows: map<Key, Aggregate>, u: User, xs: seq<Interaction>, k: Key, row: Aggregate) {
    var requests, sessions := |DistinctRequests(u, xs, k)|, |DistinctSessions(u, xs, k)|;
    if k in rows then
      && row.user == rows[k].user && row.promptCount == rows[k].promptCount + PromptsOf(u, xs, k)
      && row.requestCount == (if requests <= rows[k].requestCount then rows[k].requestCount else requests)
      && row.sessionCount == (if sessions <= rows[k].sessionCount then rows[k].sessionCount else sessions)
    else
      && row.user == u && row.promptCount == PromptsOf(u, xs, k)
      && row.requestCount == (if requests == 0 then row.promptCount else requests)
      && row.sessionCount == (if sessions == 0 then 1 else sessions)
  }

  lemma AfterCountsIds(rows: map<Key, Aggregate>, u: User, xs: seq<Interaction>, k: Key)
    requires k in rows ==> RowOk(rows[k])
    requires k in rows || PromptsOf(u, xs, k) > 0
    ensures CountsIds(rows, u, xs, k, After(rows, u, xs, k))
  {
    IdsAreDistinct(u, xs, k);
  }

  lemma {:induction false} NoPromptsForOthers(u: User, xs: seq<Interaction>, k: Key)
    requires k.entraUserId != u.entraUserId
    ensures PromptsOf(u, xs, k) == 0 && RequestIds(u, xs, k) == {} && SessionIds(u, xs, k) == {}
  {
    if xs != [] {
      NoPromptsForOthers(u, xs[..|xs| - 1], k);
    }
  }

  /** Another user's row is left exactly as it was. */
  lemma OthersUntouched(rows: map<Key, Aggregate>, u: User, xs: seq<Interaction>, k: Key, row: Aggregate)
    requires k in rows && CountsIds(rows, u, xs, k, row) && k.entraUserId != u.entraUserId
    ensures row == rows[k]
  {
    NoPromptsForOthers(u, xs, k);
    IdsAreDistinct(u, xs, k);
  }

  // ------------------------------------------------------------------------------- sums over the map

  ghost predicate Lists(order: seq<Key>, rows: map<Key, Aggregate>) {
    && (forall i, j :: 0 <= i < j < |order| ==> order[i] != order[j])
    && forall k :: k in order <==> k in rows
  }

  function StoredPrompts(rows: map<Key, Aggregate>, k: Key): nat {
    if k in rows then rows[k].promptCount else 0
  }

  function SumPrompts(order: seq<Key>, rows: map<Key, Aggregate>): nat {
    if order == [] then 0
    else SumPrompts(order[..|order| - 1], rows) + StoredPrompts(rows, order[|order| - 1])
  }

  lemma {:induction false} SumUnchanged(order: seq<Key>, rows: map<Key, Aggregate>, rows': map<Key, Aggregate>)
    requires forall k :: k in order ==> StoredPrompts(rows, k) == StoredPrompts(rows', k)
    ensures SumPrompts(order, rows) == SumPrompts(order, rows')
  {
    if order != [] {
      SumUnchanged(order[..|order| - 1], rows, rows');
    }
  }

  lemma {:induction false} SumUpdated(order: seq<Key>, rows: map<Key, Aggregate>, k: Key, row: Aggregate)
    requires forall i, j :: 0 <= i < j < |order| ==> order[i] != order[j]
    requires k in order
    ensures SumPrompts(order, rows[k := row]) == SumPrompts(order, rows) - StoredPrompts(rows, k) + row.promptCount
  {
    var n := |order| - 1;
    assert order == order[..n] + [order[n]];
    if order[n] == k {
      SumUnchanged(order[..n], rows, rows[k := row]);
    } else {
      SumUpdated(order[..n], rows, k, row);
    }
  }

  // ------------------------------------------------------------------------------- aggregation

  function AddId(m: map<Key, set<string>>, k: Key, id: string): map<Key, set<string>> {
    if id == "" then m else m[k := (if k in m then m[k] else {}) + {id}]
  }

  function Ids(m: map<Key, set<string>>, k: Key): set<string> {
    if k in m then m[k] else {}
  }

  /** The turn of the first loop for a dated prompt with key `k`. */
  function CountRow(rows: map<Key, Aggregate>, u: User, k: Key): map<Key, Aggregate> {
    var row := RowBefore(rows, u, k);
    rows[k := row.(promptCount := row.promptCount + 1)]
  }

  /** Where the first loop stands for key `k` after the interactions `xs`. */
  predicate Progress(before: map<Key, Aggregate>, u: User, xs: seq<Interaction>, rows: map<Key, Aggregate>, k: Key) {
    && (k in rows <==> k in before || PromptsOf(u, xs, k) > 0)
    && (k in rows ==> rows[k] == Counted(before, u, xs, k))
  }

  lemma OneMorePrompt(u: User, xs: seq<Interaction>, i: Interaction, k: Key)
    ensures PromptsOf(u, xs + [i], k) == PromptsOf(u, xs, k) + if Hits(u, i, k) then 1 else 0
  {
    assert (xs + [i])[..|xs|] == xs;
  }

  lemma OneMoreRequest(u: User, xs: seq<Interaction>, i: Interaction, k: Key)
    ensures RequestIds(u, xs + [i], k)
            == RequestIds(u, xs, k) + if Hits(u, i, k) && i.requestId != "" then {i.requestId} else {}
  {
    assert (xs + [i])[..|xs|] == xs;
  }

  lemma OneMoreSession(u: User, xs: seq<Interaction>, i: Interaction, k: Key)
    ensures SessionIds(u, xs + [i], k)
            == SessionIds(u, xs, k) + if Hits(u, i, k) && i.sessionId != "" then {i.sessionId} else {}
  {
    assert (xs + [i])[..|xs|] == xs;
  }

  lemma OneMoreDated(xs: seq<Interaction>, i: Interaction)
    ensures DatedPrompts(xs + [i]) == DatedPrompts(xs) + if Dated(i) then 1 else 0
  {
    assert (xs + [i])[..|xs|] == xs;
  }

  /** The first loop after the interactions `xs`: every row is counted and every set of ids is known. */
  ghost predicate Counting(before: map<Key, Aggregate>, u: User, xs: seq<Interaction>, rows: map<Key, Aggregate>) {
    forall k :: Progress(before, u, xs, rows, k)
  }

  ghost predicate RequestsKnown(u: User, xs: seq<Interaction>, requestIds: map<Key, set<string>>) {
    forall k :: Ids(requestIds, k) == RequestIds(u, xs, k)
  }

  ghost predicate SessionsKnown(u: User, xs: seq<Interaction>, sessionIds: map<Key, set<string>>) {
    forall k :: Ids(sessionIds, k) == SessionIds(u, xs, k)
  }

  /** Where the first loop stands after the interactions `xs`. */
  ghost predicate LoopAt(before: map<Key, Aggregate>, u: User, xs: seq<Interaction>, order: seq<Key>,
                         rows: map<Key, Aggregate>, requestIds: map<Key, set<string>>,
                         sessionIds: map<Key, set<string>>)
  {
    && Lists(order, rows) && Counting(before, u, xs, rows)
    && RequestsKnown(u, xs, requestIds) && SessionsKnown(u, xs, sessionIds)
  }

  lemma LoopStarts(u: User, order: seq<Key>, rows: map<Key, Aggregate>)
    requires Lists(order, rows)
    ensures LoopAt(rows, u, [], order, rows, map[], map[])
  {
  }

  lemma CountingSkips(before: map<Key, Aggregate>, u: User, xs: seq<Interaction>, i: Interaction,
                      order: seq<Key>, rows: map<Key, Aggregate>, requestIds: map<Key, set<string>>,
                      sessionIds: map<Key, set<string>>)
    requires LoopAt(before, u, xs, order, rows, requestIds, sessionIds) && !Dated(i)
    ensures LoopAt(before, u, xs + [i], order, rows, requestIds, sessionIds)
  {
    forall k
      ensures Progress(before, u, xs + [i], rows, k)
      ensures Ids(requestIds, k) == RequestIds(u, xs + [i], k)
      ensures Ids(sessionIds, k) == SessionIds(u, xs + [i], k)
    {
      assert Progress(before, u, xs, rows, k);
      OneMorePrompt(u, xs, i, k);
      OneMoreRequest(u, xs, i, k);
      OneMoreSession(u, xs, i, k);
    }
  }

  lemma CountingStep(before: map<Key, Aggregate>, u: User, xs: seq<Interaction>, i: Interaction,
                     rows: map<Key, Aggregate>, rows': map<Key, Aggregate>)
    requires Counting(before, u, xs, rows) && Dated(i) && rows' == CountRow(rows, u, KeyFor(u, i))
    ensures Counting(before, u, xs + [i], rows')
  {
    forall k ensures Progress(before, u, xs + [i], rows', k) {
      assert Progress(before, u, xs, rows, k);
      OneMorePrompt(u, xs, i, k);
    }
  }

  lemma RequestsStep(u: User, xs: seq<Interaction>, i: Interaction, ids: map<Key, set<string>>,
                     ids': map<Key, set<string>>)
    requires RequestsKnown(u, xs, ids) && Dated(i) && ids' == AddId(ids, KeyFor(u, i), i.requestId)
    ensures RequestsKnown(u, xs + [i], ids')
  {
    forall k ensures Ids(ids', k) == RequestIds(u, xs + [i], k) {
      assert Ids(ids, k) == RequestIds(u, xs, k);
      OneMoreRequest(u, xs, i, k);
    }
  }

  lemma SessionsStep(u: User, xs: seq<Interaction>, i: Interaction, ids: map<Key, set<string>>,
                     ids': map<Key, set<string>>)
    requires SessionsKnown(u, xs, ids) && Dated(i) && ids' == AddId(ids, KeyFor(u, i), i.sessionId)
    ensures SessionsKnown(u, xs + [i], ids')
  {
    forall k ensures Ids(ids', k) == SessionIds(u, xs + [i], k) {
      assert Ids(ids, k) == SessionIds(u, xs, k);
      OneMoreSession(u, xs, i, k);
    }
  }

  lemma SumCounted(order: seq<Key>, rows: map<Key, Aggregate>, u: User, k: Key)
    requires Lists(order, rows)
    ensures
      var order' := if k in rows then order else order + [k];
      Lists(order', CountRow(rows, u, k)) && SumPrompts(order', CountRow(rows, u, k)) == SumPrompts(order, rows) + 1
  {
    var rows' := CountRow(rows, u, k);
    if k in rows {
      SumUpdated(order, rows, k, rows'[k]);
    } else {
      SumUnchanged(order, rows, rows');
      assert (order + [k])[..|order|] == order;
    }
  }

  /** One turn of the first loop for a dated prompt. */
  lemma PromptCounted(before: map<Key, Aggregate>, u: User, xs: seq<Interaction>, i: Interaction, order: seq<Key>,
                      rows: map<Key, Aggregate>, requestIds: map<Key, set<string>>, sessionIds: map<Key, set<string>>,
                      order': seq<Key>, rows': map<Key, Aggregate>, requestIds': map<Key, set<string>>,
                      sessionIds': map<Key, set<string>>)
    requires LoopAt(before, u, xs, order, rows, requestIds, sessionIds) && Dated(i)
    requires order' == (if KeyFor(u, i) in rows then order else order + [KeyFor(u, i)])
    requires rows' == CountRow(rows, u, KeyFor(u, i))
    requires requestIds' == AddId(requestIds, KeyFor(u, i), i.requestId)
    requires sessionIds' == AddId(sessionIds, KeyFor(u, i), i.sessionId)
    ensures LoopAt(before, u, xs + [i], order', rows', requestIds', sessionIds')
    ensures SumPrompts(order', rows') == SumPrompts(order, rows) + 1
  {
    SumCounted(order, rows, u, KeyFor(u, i));
    CountingStep(before, u, xs, i, rows, rows');
    RequestsStep(u, xs, i, requestIds, requestIds');
    SessionsStep(u, xs, i, sessionIds, sessionIds');
  }

  /** The second loop after `n` keys. */
  ghost predicate SettledUpTo(order: seq<Key>, before: map<Key, Aggregate>, rows: map<Key, Aggregate>, n: nat,
                              requestIds: map<Key, set<string>>, sessionIds: map<Key, set<string>>)
    requires Lists(order, before)
  {
    && rows.Keys == before.Keys
    && forall j :: 0 <= j < |order| ==>
         rows[order[j]] == if j < n
                           then Settled(before[order[j]], Ids(requestIds, order[j]), Ids(sessionIds, order[j]))
                           else before[order[j]]
  }

  lemma SettleStep(order: seq<Key>, before: map<Key, Aggregate>, rows: map<Key, Aggregate>, n: nat,
                   requestIds: map<Key, set<string>>, sessionIds: map<Key, set<string>>)
    requires Lists(order, before) && SettledUpTo(order, before, rows, n, requestIds, sessionIds) && n < |order|
    ensures
      var rows' := rows[order[n] := Settled(rows[order[n]], Ids(requestIds, order[n]), Ids(sessionIds, order[n]))];
      && SettledUpTo(order, before, rows', n + 1, requestIds, sessionIds)
      && SumPrompts(order, rows') == SumPrompts(order, rows)
  {
    SumUpdated(order, rows, order[n], Settled(rows[order[n]], Ids(requestIds, order[n]), Ids(sessionIds, order[n])));
  }

  lemma AllSettled(order: seq<Key>, before: map<Key, Aggregate>, rows: map<Key, Aggregate>,
                   requestIds: map<Key, set<string>>, sessionIds: map<Key, set<string>>, k: Key)
    requires Lists(order, before) && SettledUpTo(order, before, rows, |order|, requestIds, sessionIds) && k in before
    ensures k in rows && rows[k] == Settled(before[k], Ids(requestIds, k), Ids(sessionIds, k))
  {
    assert k in order;
  }

  /** A whole call, from the two loops' results. */
  lemma CallDone(order: seq<Key>, before: map<Key, Aggregate>, u: User, xs: seq<Interaction>,
                 counted: map<Key, Aggregate>, rows: map<Key, Aggregate>,
                 requestIds: map<Key, set<string>>, sessionIds: map<Key, set<string>>, k: Key)
    requires Lists(order, counted) && Counting(before, u, xs, counted)
    requires RequestsKnown(u, xs, requestIds) && SessionsKnown(u, xs, sessionIds)
    requires SettledUpTo(order, counted, rows, |order|, requestIds, sessionIds)
    requires k in before ==> RowOk(before[k])
    ensures k in rows <==> k in before || PromptsOf(u, xs, k) > 0
    ensures k in rows ==> rows[k] == After(before, u, xs, k) && RowOk(rows[k])
  {
    assert Progress(before, u, xs, counted, k);
    if k in counted {
      AllSettled(order, counted, rows, requestIds, sessionIds, k);
      AfterOk(before, u, xs, k);
    }
  }

  /** What the second loop makes of a row whose ids are `requests` and `sessions`. */
  ghost predicate SettledBy(before: Aggregate, after: Aggregate, requests: set<string>, sessions: set<string>) {
    && after.user == before.user && after.promptCount == before.promptCount
    && (requests == {} && before.requestCount == 0 ==> after.requestCount == before.promptCount)
    && (requests != {} || before.requestCount > 0 ==>
          after.requestCount == if |requests| <= before.requestCount then before.requestCount else |requests|)
    && (sessions == {} && before.sessionCount == 0 ==> after.sessionCount == if before.promptCount > 0 then 1 else 0)
    && (sessions != {} || before.sessionCount > 0 ==>
          after.sessionCount == if |sessions| <= before.sessionCount then before.sessionCount else |sessions|)
  }

  lemma AllSettledBy(order: seq<Key>, before: map<Key, Aggregate>, rows: map<Key, Aggregate>,
                     requestIds: map<Key, set<string>>, sessionIds: map<Key, set<string>>)
    requires Lists(order, before) && SettledUpTo(order, before, rows, |order|, requestIds, sessionIds)
    ensures forall k :: k in rows ==>
              k in before && SettledBy(before[k], rows[k], Ids(requestIds, k), Ids(sessionIds, k))
  {
    forall k | k in rows
      ensures k in before && SettledBy(before[k], rows[k], Ids(requestIds, k), Ids(sessionIds, k))
    {
      AllSettled(order, before, rows, requestIds, sessionIds, k);
    }
  }

  /** The dictionary `aggregate_map` of one sync. */
  class UsageAggregator {
    var order: seq<Key>                  // its keys, oldest first
    var rows: map<Key, Aggregate>

    ghost predicate Valid()
      reads this
    {
      Lists(order, rows) && forall k :: k in rows ==> RowOk(rows[k])
    }

    constructor ()
      ensures Valid() && order == [] && rows == map[]
    {
      order, rows := [], map[];
    }

    /** The body of the first loop for a dated prompt. */
    method CountPrompt(u: User, i: Interaction, requestIds: map<Key, set<string>>, sessionIds: map<Key, set<string>>,
                       ghost before: map<Key, Aggregate>, ghost xs: seq<Interaction>)
      returns (requestIds': map<Key, set<string>>, sessionIds': map<Key, set<string>>)
      requires LoopAt(before, u, xs, order, rows, requestIds, sessionIds) && Dated(i)
      modifies this
      ensures LoopAt(before, u, xs + [i], order, rows, requestIds', sessionIds')
      ensures SumPrompts(order, rows) == old(SumPrompts(order, rows)) + 1
    {
      var key := KeyFor(u, i);
      var order' := if key in rows then order else order + [key];
      var rows' := CountRow(rows, u, key);
      requestIds', sessionIds' := AddId(requestIds, key, i.requestId), AddId(sessionIds, key, i.sessionId);
      PromptCounted(before, u, xs, i, order, rows, requestIds, sessionIds, order', rows', requestIds', sessionIds');
      order, rows := order', rows';
    }

    /** The first loop: counts the dated prompts and collects the ids of each key. */
    method CountPrompts(u: User, interactions: seq<Interaction>)
      returns (promptCount: nat, requestIds: map<Key, set<string>>, sessionIds: map<Key, set<string>>)
      requires Lists(order, rows)
      modifies this
      ensures promptCount == DatedPrompts(interactions)
      ensures SumPrompts(order, rows) == old(SumPrompts(order, rows)) + promptCount
      ensures LoopAt(old(rows), u, interactions, order, rows, requestIds, sessionIds)
    {
      promptCount, requestIds, sessionIds := 0, map[], map[];
      LoopStarts(u, order, rows);
      assert interactions[..0] == [];
      ghost var before, sum := rows, SumPrompts(order, rows);
      var n := 0;
      while n < |interactions|
        invariant 0 <= n <= |interactions|
        invariant promptCount == DatedPrompts(interactions[..n])
        invariant LoopAt(before, u, interactions[..n], order, rows, requestIds, sessionIds)
        invariant SumPrompts(order, rows) == sum + promptCount
      {
        var i := interactions[n];
        ghost var xs := interactions[..n];
        assert interactions[..n + 1] == xs + [i];
        OneMoreDated(xs, i);
        if Dated(i) {
          requestIds, sessionIds := CountPrompt(u, i, requestIds, sessionIds, before, xs);
          promptCount := promptCount + 1;
        } else {
          CountingSkips(before, u, xs, i, order, rows, requestIds, sessionIds);
        }
        n := n + 1;
      }
      assert interactions[..n] == interactions;
    }

    /** The second loop: settles the request and session counts of every row, those of earlier users included. */
    method SettleCounts(requestIds: map<Key, set<string>>, sessionIds: map<Key, set<string>>)
      requires Lists(order, rows)
      modifies this
      ensures order == old(order) && Lists(order, rows)
      ensures SumPrompts(order, rows) == old(SumPrompts(order, rows))
      ensures SettledUpTo(order, old(rows), rows, |order|, requestIds, sessionIds)
      ensures forall k :: k in rows ==> k in old(rows) && SettledBy(old(rows)[k], rows[k], Ids(requestIds, k),
                                                                    Ids(sessionIds, k))
    {
      ghost var before, keys, sum := rows, order, SumPrompts(order, rows);
      var n := 0;
      while n < |order|
        invariant 0 <= n <= |order| && order == keys
        invariant SettledUpTo(order, before, rows, n, requestIds, sessionIds)
        invariant SumPrompts(order, rows) == sum
      {
        var key := order[n];
        SettleStep(order, before, rows, n, requestIds, sessionIds);
        rows := rows[key := Settled(rows[key], Ids(requestIds, key), Ids(sessionIds, key))];
        n := n + 1;
      }
      AllSettledBy(order, before, rows, requestIds, sessionIds);
    }

    /** `_aggregate_user_prompts`. Other users' rows are untouched by `OthersUntouched`. */
    method AggregateUserPrompts(u: User, interactions: seq<Interaction>) returns (promptCount: nat)
      requires Valid()
      modifies this
      ensures Valid() && promptCount == DatedPrompts(interactions)
      ensures SumPrompts(order, rows) == old(SumPrompts(order, rows)) + promptCount
      ensures forall k :: k in rows <==> k in old(rows) || PromptsOf(u, interactions, k) > 0
      ensures forall k :: k in rows ==> CountsIds(old(rows), u, interactions, k, rows[k])
    {
      var requestIds, sessionIds;
      promptCount, requestIds, sessionIds := CountPrompts(u, interactions);
      ghost var counted := rows;
      SettleCounts(requestIds, sessionIds);
      forall k
        ensures k in rows <==> k in old(rows) || PromptsOf(u, interactions, k) > 0
        ensures k in rows ==> RowOk(rows[k]) && CountsIds(old(rows), u, interactions, k, rows[k])
      {
        CallDone(order, old(rows), u, interactions, counted, rows, requestIds, sessionIds, k);
        if k in rows {
          AfterCountsIds(old(rows), u, interactions, k);
        }
      }
    }
  }

  // ------------------------------------------------------------------------------- the source's time filter

  /** What the export returns for a window: the bounds are sent in whole seconds and are both strict. */
  predicate Exported(c: Time, windowStart: Time, windowEnd: Time) {
    FloorTo(windowStart, SECOND) < c < FloorTo(windowEnd, SECOND)
  }

  /** The hour buckets the window deletes. */
  predicate Deleted(bucket: Time, windowStart: Time, windowEnd: Time) {
    FloorTo(windowStart, HOUR) <= bucket < windowEnd
  }

  lemma FloorMonotone(a: Time, b: Time, unit: int)
    requires unit > 0 && a <= b
    ensures FloorTo(a, unit) <= FloorTo(b, unit)
  {
    var x, y := a / unit, b / unit;
    assert FloorTo(a, unit) == x * unit && FloorTo(b, unit) == y * unit;
    assert y < x ==> (y + 1) * unit <= x * unit;
  }

  lemma HourBeforeSecond(t: Time)
    ensures FloorTo(t, HOUR) <= FloorTo(t, SECOND)
  {
    assert FloorTo(t, HOUR) == (t / HOUR) * HOUR && FloorTo(t, HOUR) == (t / HOUR * 3600) * SECOND;
    assert FloorTo(FloorTo(t, HOUR), SECOND) == FloorTo(t, HOUR);
    FloorMonotone(FloorTo(t, HOUR), t, SECOND);
  }

  /** Every exported prompt falls into a deleted bucket: the insert can only refill what was emptied. */
  lemma ExportedIsDeleted(c: Time, windowStart: Time, windowEnd: Time)
    requires Exported(c, windowStart, windowEnd)
    ensures Deleted(FloorTo(c, HOUR), windowStart, windowEnd)
  {
    HourBeforeSecond(windowStart);
    FloorMonotone(FloorTo(windowStart, HOUR), c, HOUR);
    assert FloorTo(windowStart, HOUR) == (windowStart / HOUR) * HOUR;
    assert FloorTo(FloorTo(windowStart, HOUR), HOUR) == FloorTo(windowStart, HOUR);
  }

  /** In the first hour up to the whole second of the window's start, or from the whole second of its end to the end of
      that hour. */
  predicate AtEdge(c: Time, windowStart: Time, windowEnd: Time) {
    || FloorTo(windowStart, HOUR) <= c <= FloorTo(windowStart, SECOND)
    || (FloorTo(windowEnd, SECOND) <= c && FloorTo(c, HOUR) < windowEnd)
  }

  /** A time in a deleted bucket is exported again, or at an edge. */
  lemma ExportedUnlessAtEdge(c: Time, windowStart: Time, windowEnd: Time)
    requires Deleted(FloorTo(c, HOUR), windowStart, windowEnd)
    ensures Exported(c, windowStart, windowEnd) <==> !AtEdge(c, windowStart, windowEnd)
  {
  }

  /** No window is without an edge: the first instant of its first bucket is one, on the hour or not. */
  lemma EveryWindowHasAnEdge(windowStart: Time, windowEnd: Time)
    requires FloorTo(windowStart, HOUR) < windowEnd
    ensures
      var c := FloorTo(windowStart, HOUR);
      AtEdge(c, windowStart, windowEnd) && Deleted(FloorTo(c, HOUR), windowStart, windowEnd)
  {
    HourBeforeSecond(windowStart);
  }

  /** What the export returns of a user's interactions. */
  function Fetched(xs: seq<Interaction>, windowStart: Time, windowEnd: Time): (r: seq<Interaction>)
    ensures forall i :: i in r ==> i.createdAt.Some? && Exported(i.createdAt.value, windowStart, windowEnd)
  {
    if xs == [] then []
    else
      var i := xs[|xs| - 1];
      Fetched(xs[..|xs| - 1], windowStart, windowEnd)
      + if i.createdAt.Some? && Exported(i.createdAt.value, windowStart, windowEnd) then [i] else []
  }

  predicate LosesPrompt(u: User, i: Interaction, k: Key, windowStart: Time, windowEnd: Time) {
    Hits(u, i, k) && AtEdge(i.createdAt.value, windowStart, windowEnd)
  }

  ghost predicate LosesSome(u: User, xs: seq<Interaction>, k: Key, windowStart: Time, windowEnd: Time) {
    exists i :: i in xs && LosesPrompt(u, i, k, windowStart, windowEnd)
  }

  function EdgePrompts(u: User, xs: seq<Interaction>, k: Key, windowStart: Time, windowEnd: Time): nat {
    if xs == [] then 0
    else
      EdgePrompts(u, xs[..|xs| - 1], k, windowStart, windowEnd)
      + if LosesPrompt(u, xs[|xs| - 1], k, windowStart, windowEnd) then 1 else 0
  }

  lemma OneMoreFetched(u: User, xs: seq<Interaction>, i: Interaction, k: Key, windowStart: Time, windowEnd: Time)
    requires Deleted(k.bucketStartUtc, windowStart, windowEnd)
    ensures PromptsOf(u, Fetched(xs + [i], windowStart, windowEnd), k)
            == PromptsOf(u, Fetched(xs, windowStart, windowEnd), k)
               + if Hits(u, i, k) && !LosesPrompt(u, i, k, windowStart, windowEnd) then 1 else 0
    ensures LosesSome(u, xs + [i], k, windowStart, windowEnd)
            <==> LosesSome(u, xs, k, windowStart, windowEnd) || LosesPrompt(u, i, k, windowStart, windowEnd)
  {
    var fetched := Fetched(xs, windowStart, windowEnd);
    assert (xs + [i])[..|xs|] == xs && fetched + [] == fetched && i in xs + [i];
    OneMorePrompt(u, fetched, i, k);
    if Hits(u, i, k) {
      ExportedUnlessAtEdge(i.createdAt.value, windowStart, windowEnd);
    }
  }

  /** Of a user's prompts of a deleted bucket, exactly those at an edge are not fetched. */
  lemma {:induction false} FetchedIffNoEdge(u: User, xs: seq<Interaction>, k: Key, windowStart: Time, windowEnd: Time)
    requires Deleted(k.bucketStartUtc, windowStart, windowEnd)
    ensures PromptsOf(u, Fetched(xs, windowStart, windowEnd), k) + EdgePrompts(u, xs, k, windowStart, windowEnd)
            == PromptsOf(u, xs, k)
    ensures EdgePrompts(u, xs, k, windowStart, windowEnd) > 0 <==> LosesSome(u, xs, k, windowStart, windowEnd)
  {
    if xs != [] {
      var before, i := xs[..|xs| - 1], xs[|xs| - 1];
      assert xs == before + [i];
      FetchedIffNoEdge(u, before, k, windowStart, windowEnd);
      OneMorePrompt(u, before, i, k);
      OneMoreFetched(u, before, i, k, windowStart, windowEnd);
    }
  }

  // ------------------------------------------------------------------------------- replacement

  predicate InScope(k: Key, userIds: seq<string>, allTime: bool, windowStart: Option<Time>, windowEnd: Time) {
    if allTime then k.entraUserId in userIds
    else windowStart.Some? && Deleted(k.bucketStartUtc, windowStart.value, windowEnd)
  }

  /** The stored aggregates, by conflict key. */
  class AggregateTable {
    var table: map<Key, Aggregate>

    constructor (table: map<Key, Aggregate>)
      ensures this.table == table
    {
      this.table := table;
    }

    /** `_replace_interaction_aggregates`: delete, upsert row by row, commit; an error rolls the transaction back. */
    method Replace(order: seq<Key>, rows: map<Key, Aggregate>, userIds: seq<string>, allTime: bool,
                   windowStart: Option<Time>, windowEnd: Time, fails: bool)
      requires Lists(order, rows)
      modifies this
      ensures fails ==> table == old(table)
      ensures !fails ==>
                table == (map k | k in old(table) && !InScope(k, userIds, allTime, windowStart, windowEnd)
                            :: old(table)[k])
                         + rows
    {
      var next := map k | k in table && !InScope(k, userIds, allTime, windowStart, windowEnd) :: table[k];
      ghost var kept := next;
      var n := 0;
      while n < |order|
        invariant 0 <= n <= |order|
        invariant forall k :: k in next <==> k in kept || k in order[..n]
        invariant forall k :: k in next ==> next[k] == if k in order[..n] then rows[k] else kept[k]
      {
        assert order[..n + 1] == order[..n] + [order[n]];
        next := next[order[n] := rows[order[n]]];
        n := n + 1;
      }
      assert order[..n] == order;
      if !fails {
        table := next;
      }
    }
  }

  /** The interactions of one resolved user. */
  datatype Export = Export(user: User, interactions: seq<Interaction>)

  ghost predicate HonoursFilter(exports: seq<Export>, windowStart: Option<Time>, windowEnd: Time) {
    windowStart.Some? ==>
      forall e, i :: e in exports && i in e.interactions && i.createdAt.Some? ==>
                       Exported(i.createdAt.value, windowStart.value, windowEnd)
  }

  function AllDatedPrompts(exports: seq<Export>): nat {
    if exports == [] then 0
    else AllDatedPrompts(exports[..|exports| - 1]) + DatedPrompts(exports[|exports| - 1].interactions)
  }

  /** The dated prompts of key `k`, whoever's exports they are in. */
  function KeyPrompts(exports: seq<Export>, k: Key): nat {
    if exports == [] then 0
    else
      var e := exports[|exports| - 1];
      KeyPrompts(exports[..|exports| - 1], k) + PromptsOf(e.user, e.interactions, k)
  }

  lemma {:induction false} PromptIsIn(u: User, xs: seq<Interaction>, k: Key) returns (i: Interaction)
    requires PromptsOf(u, xs, k) > 0
    ensures i in xs && Hits(u, i, k)
  {
    if Hits(u, xs[|xs| - 1], k) {
      i := xs[|xs| - 1];
    } else {
      i := PromptIsIn(u, xs[..|xs| - 1], k);
    }
  }

  function UserIds(exports: seq<Export>): seq<string> {
    if exports == [] then [] else UserIds(exports[..|exports| - 1]) + [exports[|exports| - 1].user.entraUserId]
  }

  /** The request count of a key after the exports: distinct ids, or prompts, of the first user with prompts for it, and
      from then on the greatest number of ids. */
  function RequestCount(exports: seq<Export>, k: Key): nat {
    if exports == [] then 0
    else
      var e, before := exports[|exports| - 1], exports[..|exports| - 1];
      var ids := |DistinctRequests(e.user, e.interactions, k)|;
      if KeyPrompts(before, k) == 0 then (if ids == 0 then PromptsOf(e.user, e.interactions, k) else ids)
      else if ids <= RequestCount(before, k) then RequestCount(before, k) else ids
  }

  function SessionCount(exports: seq<Export>, k: Key): nat {
    if exports == [] then 0
    else
      var e, before := exports[|exports| - 1], exports[..|exports| - 1];
      var ids := |DistinctSessions(e.user, e.interactions, k)|;
      if KeyPrompts(before, k) == 0
      then (if ids == 0 && PromptsOf(e.user, e.interactions, k) > 0 then 1 else ids)
      else if ids <= SessionCount(before, k) then SessionCount(before, k) else ids
  }

  /** The row of a key says what was exported for it. */
  ghost predicate RowSays(row: Aggregate, exports: seq<Export>, k: Key) {
    && row.promptCount == KeyPrompts(exports, k) && row.requestCount == RequestCount(exports, k)
    && row.sessionCount == SessionCount(exports, k) && row.user.entraUserId == k.entraUserId
  }

  lemma OneMoreUser(exports: seq<Export>, e: Export, k: Key)
    ensures
      var prompts := PromptsOf(e.user, e.interactions, k);
      var requests, sessions := |DistinctRequests(e.user, e.interactions, k)|,
                                |DistinctSessions(e.user, e.interactions, k)|;
      && KeyPrompts(exports + [e], k) == KeyPrompts(exports, k) + prompts
      && RequestCount(exports + [e], k)
         == (if KeyPrompts(exports, k) == 0 then (if requests == 0 then prompts else requests)
             else if requests <= RequestCount(exports, k) then RequestCount(exports, k) else requests)
      && SessionCount(exports + [e], k)
         == (if KeyPrompts(exports, k) == 0 then (if sessions == 0 && prompts > 0 then 1 else sessions)
             else if sessions <= SessionCount(exports, k) then SessionCount(exports, k) else sessions)
  {
    assert (exports + [e])[..|exports|] == exports;
  }

  lemma RowStillSays(before: map<Key, Aggregate>, row: Aggregate, exports: seq<Export>, e: Export, k: Key)
    requires k in before <==> KeyPrompts(exports, k) > 0
    requires k in before ==> RowSays(before[k], exports, k)
    requires k in before || PromptsOf(e.user, e.interactions, k) > 0
    requires CountsIds(before, e.user, e.interactions, k, row)
    ensures RowSays(row, exports + [e], k)
  {
    OneMoreUser(exports, e, k);
    if k !in before {
      var i := PromptIsIn(e.user, e.interactions, k);
    }
  }

  /** Where the sync stands after `exports`: each key's row says what was exported, and lies in scope. */
  ghost predicate Synced(rows: map<Key, Aggregate>, exports: seq<Export>, windowStart: Option<Time>, windowEnd: Time) {
    forall k :: SyncedAt(rows, exports, windowStart, windowEnd, k)
  }

  ghost predicate SyncedAt(rows: map<Key, Aggregate>, exports: seq<Export>, windowStart: Option<Time>, windowEnd: Time,
                           k: Key)
  {
    && (k in rows <==> KeyPrompts(exports, k) > 0)
    && (k in rows ==> RowSays(rows[k], exports, k))
    && (k in rows ==> InScope(k, UserIds(exports), windowStart.None?, windowStart, windowEnd))
  }

  lemma StaysInScope(exports: seq<Export>, e: Export, windowStart: Option<Time>, windowEnd: Time, k: Key)
    requires HonoursFilter([e], windowStart, windowEnd)
    requires PromptsOf(e.user, e.interactions, k) > 0
             || InScope(k, UserIds(exports), windowStart.None?, windowStart, windowEnd)
    ensures InScope(k, UserIds(exports + [e]), windowStart.None?, windowStart, windowEnd)
  {
    assert (exports + [e])[..|exports|] == exports;
    if PromptsOf(e.user, e.interactions, k) > 0 {
      var i := PromptIsIn(e.user, e.interactions, k);
      assert e in [e];
      if windowStart.Some? {
        ExportedIsDeleted(i.createdAt.value, windowStart.value, windowEnd);
      }
    }
  }

  /** One more user. */
  lemma SyncedStep(before: map<Key, Aggregate>, rows: map<Key, Aggregate>, exports: seq<Export>, e: Export,
                   windowStart: Option<Time>, windowEnd: Time)
    requires Synced(before, exports, windowStart, windowEnd) && HonoursFilter([e], windowStart, windowEnd)
    requires forall k :: k in rows <==> k in before || PromptsOf(e.user, e.interactions, k) > 0
    requires forall k :: k in rows ==> CountsIds(before, e.user, e.interactions, k, rows[k])
    ensures Synced(rows, exports + [e], windowStart, windowEnd)
  {
    forall k ensures SyncedAt(rows, exports + [e], windowStart, windowEnd, k) {
      assert SyncedAt(before, exports, windowStart, windowEnd, k);
      OneMoreUser(exports, e, k);
      if k in rows {
        RowStillSays(before, rows[k], exports, e, k);
        StaysInScope(exports, e, windowStart, windowEnd, k);
      }
    }
  }

  /** The table at key `k`: the new row if there is one, else the old one if it is out of scope. */
  ghost predicate Merged(table: map<Key, Aggregate>, before: map<Key, Aggregate>, rows: map<Key, Aggregate>,
                         inScope: bool, k: Key)
  {
    && (k in table <==> k in rows || (k in before && !inScope))
    && (k in table ==> table[k] == if k in rows then rows[k] else before[k])
  }

  /** The turn of the sync's loop for one resolved user. */
  method SyncUser(aggregator: UsageAggregator, e: Export, ghost done: seq<Export>, windowStart: Option<Time>,
                  windowEnd: Time)
    returns (userPrompts: nat)
    requires aggregator.Valid() && Synced(aggregator.rows, done, windowStart, windowEnd)
    requires HonoursFilter([e], windowStart, windowEnd)
    modifies aggregator
    ensures aggregator.Valid() && Synced(aggregator.rows, done + [e], windowStart, windowEnd)
    ensures userPrompts == DatedPrompts(e.interactions)
    ensures SumPrompts(aggregator.order, aggregator.rows)
            == old(SumPrompts(aggregator.order, aggregator.rows)) + userPrompts
  {
    ghost var before := aggregator.rows;
    userPrompts := aggregator.AggregateUserPrompts(e.user, e.interactions);
    SyncedStep(before, aggregator.rows, done, e, windowStart, windowEnd);
  }

  /** The interaction half of `run_copilot_usage_sync`. Afterwards the table holds exactly the old rows out of scope and
      the new rows, with no overlap; a key has a new row exactly when dated prompts were exported for it, and the row
      counts them, and the requests and sessions; all rows together count the dated prompts exported. */
  method SyncInteractions(store: AggregateTable, exports: seq<Export>, windowStart: Option<Time>, windowEnd: Time)
    returns (promptCount: nat, order: seq<Key>, rows: map<Key, Aggregate>)
    requires HonoursFilter(exports, windowStart, windowEnd)
    modifies store
    ensures promptCount == AllDatedPrompts(exports)
    ensures Lists(order, rows) && SumPrompts(order, rows) == promptCount
    ensures forall k :: SyncedAt(rows, exports, windowStart, windowEnd, k)
    ensures forall k :: k in rows ==> RowOk(rows[k])
    ensures forall k ::
              Merged(store.table, old(store.table), rows,
                     InScope(k, UserIds(exports), windowStart.None?, windowStart, windowEnd), k)
  {
    var aggregator := new UsageAggregator();
    promptCount := 0;
    var n := 0;
    while n < |exports|
      invariant 0 <= n <= |exports| && aggregator.Valid() && store.table == old(store.table)
      invariant promptCount == AllDatedPrompts(exports[..n])
      invariant SumPrompts(aggregator.order, aggregator.rows) == promptCount
      invariant Synced(aggregator.rows, exports[..n], windowStart, windowEnd)
      modifies aggregator
    {
      var e := exports[n];
      assert e in exports && exports[..n + 1] == exports[..n] + [e] && exports[..n + 1][..n] == exports[..n];
      var userPrompts := SyncUser(aggregator, e, exports[..n], windowStart, windowEnd);
      promptCount := promptCount + userPrompts;
      n := n + 1;
    }
    assert exports[..n] == exports;
    var userIds := UserIds(exports);
    store.Replace(aggregator.order, aggregator.rows, userIds, windowStart.None?, windowStart, windowEnd, false);
    order, rows := aggregator.order, aggregator.rows;
  }

  // ------------------------------------------------------------------------------- a sync of what there is

  /** All the interactions there are, by Entra id. */
  type World = string -> seq<Interaction>

  /** How the export of a user ends: with its pages, with a status 400, 403 or 404, or with another error. */
  datatype Answer = Exports | Skips | Raises

  /** A user that was chosen and resolved. Nothing keeps one from being listed twice. */
  datatype Listing = Listing(user: User, answer: Answer)

  function Visible(xs: seq<Interaction>, windowStart: Option<Time>, windowEnd: Time): seq<Interaction> {
    if windowStart.None? then xs else Fetched(xs, windowStart.value, windowEnd)
  }

  function ExportOf(l: Listing, world: World, windowStart: Option<Time>, windowEnd: Time): Export {
    Export(l.user, if l.answer.Exports? then Visible(world(l.user.entraUserId), windowStart, windowEnd) else [])
  }

  function ExportsOf(listings: seq<Listing>, world: World, windowStart: Option<Time>, windowEnd: Time)
    : (r: seq<Export>)
    ensures |r| == |listings|
    ensures forall n :: 0 <= n < |r| ==> r[n] == ExportOf(listings[n], world, windowStart, windowEnd)
  {
    if listings == [] then []
    else
      var n := |listings| - 1;
      ExportsOf(listings[..n], world, windowStart, windowEnd) + [ExportOf(listings[n], world, windowStart, windowEnd)]
  }

  /** How often the user's interactions are exported. */
  function Answers(listings: seq<Listing>, id: string): nat {
    if listings == [] then 0
    else
      var l := listings[|listings| - 1];
      Answers(listings[..|listings| - 1], id) + if l.answer.Exports? && l.user.entraUserId == id then 1 else 0
  }

  predicate Listed(listings: seq<Listing>, id: string) {
    exists l :: l in listings && l.user.entraUserId == id
  }

  predicate Raised(listings: seq<Listing>) {
    exists l :: l in listings && l.answer.Raises?
  }

  /** A key's user, as far as keys can tell. */
  function Holder(k: Key): User {
    User(k.entraUserId, "", "", "", "")
  }

  /** The prompts of the key that there are. */
  function Actual(world: World, k: Key): nat {
    PromptsOf(Holder(k), world(k.entraUserId), k)
  }

  /** Those of them at an edge of the window. */
  function AtEdges(world: World, k: Key, windowStart: Time, windowEnd: Time): nat {
    EdgePrompts(Holder(k), world(k.entraUserId), k, windowStart, windowEnd)
  }

  lemma {:induction false} SameHolder(u: User, xs: seq<Interaction>, k: Key)
    requires u.entraUserId == k.entraUserId
    ensures PromptsOf(u, xs, k) == PromptsOf(Holder(k), xs, k)
  {
    if xs != [] {
      SameHolder(u, xs[..|xs| - 1], k);
      assert Hits(u, xs[|xs| - 1], k) == Hits(Holder(k), xs[|xs| - 1], k);
    }
  }

  lemma SameIds(u: User, xs: seq<Interaction>, k: Key)
    requires u.entraUserId == k.entraUserId
    ensures DistinctRequests(u, xs, k) == DistinctRequests(Holder(k), xs, k)
    ensures DistinctSessions(u, xs, k) == DistinctSessions(Holder(k), xs, k)
  {
    assert forall i :: i in xs ==> Hits(u, i, k) == Hits(Holder(k), i, k);
  }

  /** The ids counted in a row, which repeated exports do not change: those of the visible prompts of the key. */
  ghost predicate IdsStored(requests: nat, sessions: nat, xs: seq<Interaction>, k: Key) {
    && requests == (if DistinctRequests(Holder(k), xs, k) == {} then PromptsOf(Holder(k), xs, k)
                    else |DistinctRequests(Holder(k), xs, k)|)
    && sessions == (if DistinctSessions(Holder(k), xs, k) == {} then 1 else |DistinctSessions(Holder(k), xs, k)|)
  }

  lemma OneMoreExport(exports: seq<Export>, e: Export, k: Key)
    ensures KeyPrompts(exports + [e], k) == KeyPrompts(exports, k) + PromptsOf(e.user, e.interactions, k)
  {
    assert (exports + [e])[..|exports|] == exports;
  }

  lemma OneMoreAnswer(listings: seq<Listing>, l: Listing, world: World, k: Key, windowStart: Option<Time>,
                      windowEnd: Time)
    ensures
      var more := if l.answer.Exports? && l.user.entraUserId == k.entraUserId then 1 else 0;
      var visible := PromptsOf(Holder(k), Visible(world(k.entraUserId), windowStart, windowEnd), k);
      && Answers(listings + [l], k.entraUserId) == Answers(listings, k.entraUserId) + more
      && KeyPrompts(ExportsOf(listings + [l], world, windowStart, windowEnd), k)
         == KeyPrompts(ExportsOf(listings, world, windowStart, windowEnd), k) + if more == 1 then visible else 0
  {
    assert (listings + [l])[..|listings|] == listings;
    var e := ExportOf(l, world, windowStart, windowEnd);
    OneMoreExport(ExportsOf(listings, world, windowStart, windowEnd), e, k);
    if l.user.entraUserId == k.entraUserId {
      SameHolder(l.user, e.interactions, k);
    } else {
      NoPromptsForOthers(l.user, e.interactions, k);
    }
  }

  /** What a sync exports for a key: as often as its user is listed and answered, what is visible of the user's prompts.
      */
  lemma {:induction false} ExportedPrompts(listings: seq<Listing>, world: World, k: Key, windowStart: Option<Time>,
                                           windowEnd: Time)
    ensures KeyPrompts(ExportsOf(listings, world, windowStart, windowEnd), k)
            == Answers(listings, k.entraUserId)
               * PromptsOf(Holder(k), Visible(world(k.entraUserId), windowStart, windowEnd), k)
  {
    if listings != [] {
      var before, l := listings[..|listings| - 1], listings[|listings| - 1];
      assert listings == before + [l];
      ExportedPrompts(before, world, k, windowStart, windowEnd);
      OneMoreAnswer(before, l, world, k, windowStart, windowEnd);
      var visible := PromptsOf(Holder(k), Visible(world(k.entraUserId), windowStart, windowEnd), k);
      OneMoreTime(Answers(before, k.entraUserId), visible);
    }
  }

  lemma ExportCounts(l: Listing, world: World, k: Key, windowStart: Option<Time>, windowEnd: Time)
    ensures
      var e, xs := ExportOf(l, world, windowStart, windowEnd), Visible(world(k.entraUserId), windowStart, windowEnd);
      if l.answer.Exports? && l.user.entraUserId == k.entraUserId then
        && PromptsOf(e.user, e.interactions, k) == PromptsOf(Holder(k), xs, k)
        && DistinctRequests(e.user, e.interactions, k) == DistinctRequests(Holder(k), xs, k)
        && DistinctSessions(e.user, e.interactions, k) == DistinctSessions(Holder(k), xs, k)
      else
        && PromptsOf(e.user, e.interactions, k) == 0 && DistinctRequests(e.user, e.interactions, k) == {}
        && DistinctSessions(e.user, e.interactions, k) == {}
  {
    var e := ExportOf(l, world, windowStart, windowEnd);
    IdsAreDistinct(e.user, e.interactions, k);
    if l.user.entraUserId == k.entraUserId {
      SameHolder(l.user, e.interactions, k);
      SameIds(l.user, e.interactions, k);
    } else {
      NoPromptsForOthers(l.user, e.interactions, k);
    }
  }

  /** The counts of ids a sync makes for a key that is exported at all. */
  lemma {:induction false} ExportedIds(listings: seq<Listing>, world: World, k: Key, windowStart: Option<Time>,
                                       windowEnd: Time)
    ensures
      var exports, xs := ExportsOf(listings, world, windowStart, windowEnd),
                         Visible(world(k.entraUserId), windowStart, windowEnd);
      KeyPrompts(exports, k) > 0 ==> IdsStored(RequestCount(exports, k), SessionCount(exports, k), xs, k)
  {
    if listings != [] {
      var before, l := listings[..|listings| - 1], listings[|listings| - 1];
      ExportedIds(before, world, k, windowStart, windowEnd);
      ExportedPrompts(before, world, k, windowStart, windowEnd);
      ExportCounts(l, world, k, windowStart, windowEnd);
      OneMoreUser(ExportsOf(before, world, windowStart, windowEnd), ExportOf(l, world, windowStart, windowEnd), k);
    }
  }

  lemma OneMoreTime(n: nat, p: nat)
    ensures (n + 1) * p == n * p + p
  {
  }

  /** The prompts a window exports of a key whose bucket it deletes. */
  lemma WindowPrompts(listings: seq<Listing>, world: World, k: Key, windowStart: Time, windowEnd: Time)
    requires Deleted(k.bucketStartUtc, windowStart, windowEnd)
    ensures AtEdges(world, k, windowStart, windowEnd) <= Actual(world, k)
    ensures KeyPrompts(ExportsOf(listings, world, Some(windowStart), windowEnd), k)
            == Answers(listings, k.entraUserId) * (Actual(world, k) - AtEdges(world, k, windowStart, windowEnd))
  {
    ExportedPrompts(listings, world, k, Some(windowStart), windowEnd);
    FetchedIffNoEdge(Holder(k), world(k.entraUserId), k, windowStart, windowEnd);
  }

  lemma FewerIff(answers: nat, actual: nat, edges: nat, exported: nat)
    requires edges <= actual && exported == answers * (actual - edges)
    ensures exported < actual
            <==> if answers == 0 then actual > 0
                 else if answers == 1 then edges > 0
                 else (answers - 1) * actual < answers * edges
  {
    assert exported == answers * actual - answers * edges && (answers - 1) * actual == answers * actual - actual;
  }

  /** Exactly when a window drops prompts of a key whose bucket it deletes: when the user was not listed, or not
      answered, and has some; when the user was answered once and one is at an edge; and when the user was answered more
      often, so that each of the others counts more than once, and they still do not make up for those at the edges. */
  lemma PromptsDroppedByWindow(listings: seq<Listing>, world: World, k: Key, windowStart: Time, windowEnd: Time)
    requires Deleted(k.bucketStartUtc, windowStart, windowEnd)
    ensures
      var answers, actual := Answers(listings, k.entraUserId), Actual(world, k);
      KeyPrompts(ExportsOf(listings, world, Some(windowStart), windowEnd), k) < actual
      <==> if answers == 0 then actual > 0
           else if answers == 1 then LosesSome(Holder(k), world(k.entraUserId), k, windowStart, windowEnd)
           else (answers - 1) * actual < answers * AtEdges(world, k, windowStart, windowEnd)
  {
    WindowPrompts(listings, world, k, windowStart, windowEnd);
    FetchedIffNoEdge(Holder(k), world(k.entraUserId), k, windowStart, windowEnd);
    FewerIff(Answers(listings, k.entraUserId), Actual(world, k), AtEdges(world, k, windowStart, windowEnd),
             KeyPrompts(ExportsOf(listings, world, Some(windowStart), windowEnd), k));
  }

  lemma {:induction false} ListedIds(listings: seq<Listing>, world: World, windowStart: Option<Time>, windowEnd: Time,
                                     id: string)
    ensures id in UserIds(ExportsOf(listings, world, windowStart, windowEnd)) <==> Listed(listings, id)
  {
    if listings != [] {
      var before, l := listings[..|listings| - 1], listings[|listings| - 1];
      assert listings == before + [l];
      ListedIds(before, world, windowStart, windowEnd, id);
      var exports := ExportsOf(before, world, windowStart, windowEnd);
      assert (exports + [ExportOf(l, world, windowStart, windowEnd)])[..|exports|] == exports;
    }
  }

  /** The table at key `k` after a sync of a window: a bucket in it, whosever it is, has a row exactly when its user was
      listed and answered, and has prompts of the key that are not at an edge. The row counts them once for every
      answer, and their request and session ids once. A bucket outside is as it was. */
  ghost predicate WindowSynced(table: map<Key, Aggregate>, before: map<Key, Aggregate>, listings: seq<Listing>,
                               world: World, windowStart: Time, windowEnd: Time, k: Key)
  {
    if Deleted(k.bucketStartUtc, windowStart, windowEnd) then
      var answers := Answers(listings, k.entraUserId);
      && AtEdges(world, k, windowStart, windowEnd) <= Actual(world, k)
      && (k in table <==> answers > 0 && AtEdges(world, k, windowStart, windowEnd) < Actual(world, k))
      && StoredPrompts(table, k) == answers * (Actual(world, k) - AtEdges(world, k, windowStart, windowEnd))
      && (k in table ==>
            IdsStored(table[k].requestCount, table[k].sessionCount,
                      Fetched(world(k.entraUserId), windowStart, windowEnd), k))
    else
      (k in table <==> k in before) && (k in table ==> table[k] == before[k])
  }

  lemma Positive(n: nat, p: nat)
    ensures n * p > 0 <==> n > 0 && p > 0
  {
  }

  lemma WindowIsSynced(table: map<Key, Aggregate>, before: map<Key, Aggregate>, rows: map<Key, Aggregate>,
                       listings: seq<Listing>, world: World, windowStart: Time, windowEnd: Time, k: Key)
    requires SyncedAt(rows, ExportsOf(listings, world, Some(windowStart), windowEnd), Some(windowStart), windowEnd, k)
    requires Merged(table, before, rows, Deleted(k.bucketStartUtc, windowStart, windowEnd), k)
    ensures WindowSynced(table, before, listings, world, windowStart, windowEnd, k)
  {
    if Deleted(k.bucketStartUtc, windowStart, windowEnd) {
      WindowPrompts(listings, world, k, windowStart, windowEnd);
      ExportedIds(listings, world, k, Some(windowStart), windowEnd);
      Positive(Answers(listings, k.entraUserId), Actual(world, k) - AtEdges(world, k, windowStart, windowEnd));
    }
  }

  /** A sync of a window. An export that raises ends it with the table as it was. */
  method SyncWindow(store: AggregateTable, listings: seq<Listing>, world: World, windowStart: Time, windowEnd: Time)
    returns (ok: bool)
    modifies store
    ensures ok <==> !Raised(listings)
    ensures !ok ==> store.table == old(store.table)
    ensures ok ==> forall k ::
              WindowSynced(store.table, old(store.table), listings, world, windowStart, windowEnd, k)
  {
    ok := !Raised(listings);
    if !ok {
      return;
    }
    var exports := ExportsOf(listings, world, Some(windowStart), windowEnd);
    assert HonoursFilter(exports, Some(windowStart), windowEnd);
    ghost var before := store.table;
    var promptCount, order, rows := SyncInteractions(store, exports, Some(windowStart), windowEnd);
    forall k ensures WindowSynced(store.table, before, listings, world, windowStart, windowEnd, k) {
      assert SyncedAt(rows, exports, Some(windowStart), windowEnd, k);
      assert Merged(store.table, before, rows, InScope(k, UserIds(exports), false, Some(windowStart), windowEnd), k);
      WindowIsSynced(store.table, before, rows, listings, world, windowStart, windowEnd, k);
    }
  }

  /** The table at key `k` after a sync of all time: a listed user has a row exactly when answered and with prompts of
      the key, which the row counts once for every answer, and their ids once. So the whole stored history of a listed
      user who was not answered is gone. Another user's row is as it was. */
  ghost predicate AllTimeSynced(table: map<Key, Aggregate>, before: map<Key, Aggregate>, listings: seq<Listing>,
                                world: World, k: Key)
  {
    if Listed(listings, k.entraUserId) then
      && (k in table <==> Answers(listings, k.entraUserId) > 0 && Actual(world, k) > 0)
      && StoredPrompts(table, k) == Answers(listings, k.entraUserId) * Actual(world, k)
      && (k in table ==> IdsStored(table[k].requestCount, table[k].sessionCount, world(k.entraUserId), k))
    else
      (k in table <==> k in before) && (k in table ==> table[k] == before[k])
  }

  lemma AllTimeIsSynced(table: map<Key, Aggregate>, before: map<Key, Aggregate>, rows: map<Key, Aggregate>,
                        listings: seq<Listing>, world: World, now: Time, k: Key)
    requires SyncedAt(rows, ExportsOf(listings, world, None, now), None, now, k)
    requires Merged(table, before, rows, Listed(listings, k.entraUserId), k)
    ensures AllTimeSynced(table, before, listings, world, k)
  {
    ListedIds(listings, world, None, now, k.entraUserId);
    ExportedPrompts(listings, world, k, None, now);
    ExportedIds(listings, world, k, None, now);
    Positive(Answers(listings, k.entraUserId), Actual(world, k));
  }

  /** A sync of all time, the mode a job has unless it is configured otherwise. An export that raises ends it with the
      table as it was. */
  method SyncAllTime(store: AggregateTable, listings: seq<Listing>, world: World, now: Time) returns (ok: bool)
    modifies store
    ensures ok <==> !Raised(listings)
    ensures !ok ==> store.table == old(store.table)
    ensures ok ==> forall k :: AllTimeSynced(store.table, old(store.table), listings, world, k)
  {
    ok := !Raised(listings);
    if !ok {
      return;
    }
    var all: Option<Time> := None;
    var exports := ExportsOf(listings, world, all, now);
    ghost var before := store.table;
    var promptCount, order, rows := SyncInteractions(store, exports, all, now);
    forall k ensures AllTimeSynced(store.table, before, listings, world, k) {
      ListedIds(listings, world, None, now, k.entraUserId);
      assert SyncedAt(rows, exports, None, now, k);
      var inScope := InScope(k, UserIds(exports), all.None?, all, now);
      assert Merged(store.table, before, rows, inScope, k) && inScope == Listed(listings, k.entraUserId);
      AllTimeIsSynced(store.table, before, rows, listings, world, now, k);
    }
  }
}
