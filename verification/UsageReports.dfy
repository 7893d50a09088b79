/** Report rows of worker/app/jobs/copilot_usage_sync.py: duplicate user rows merge as a join, trend rows keep the
    latest of the longest period. */
module UsageReports {
  import opened Options
  import opened KeyedRows

  type Date = nat   // days since date.min
  type UserKey = (string, string)

  /** A normalised user detail row; an empty text is a missing one. */
  datatype UserRow = UserRow(sourcePeriod: string, reportUserKey: string,
                             entraUserId: string, userPrincipalName: string, displayName: string, department: string,
                             officeLocation: string,
                             lastActivityDate: Option<Date>, reportRefreshDate: Option<Date>, reportPeriod: int,
                             enabledForCopilot: Option<bool>, activeInPeriod: bool, rawJson: string)

  function KeyOf(r: UserRow): UserKey {
    (r.sourcePeriod, r.reportUserKey)
  }

  /** The score tuple, compared from the left. */
  datatype Score = Score(active: int, activity: int, refresh: int, period: int, identity: int)

  function One(b: bool): int {
    if b then 1 else 0
  }

  function IdentityCount(r: UserRow): int {
    One(r.entraUserId != "") + One(r.userPrincipalName != "") + One(r.displayName != "") + One(r.department != "")
    + One(r.officeLocation != "")
  }

  /** `_user_detail_row_score`; a missing date counts as date.min. */
  function UserDetailRowScore(r: UserRow): Score {
    Score(One(r.activeInPeriod), r.lastActivityDate.GetOr(0), r.reportRefreshDate.GetOr(0), r.reportPeriod,
          IdentityCount(r))
  }

  predicate Below(a: Score, b: Score) {
    if a.active != b.active then a.active < b.active
    else if a.activity != b.activity then a.activity < b.activity
    else if a.refresh != b.refresh then a.refresh < b.refresh
    else if a.period != b.period then a.period < b.period
    else a.identity < b.identity
  }

  function Or(a: string, b: string): string {
    if a == "" then b else a
  }

  function MaxInt(a: int, b: int): int {
    if a < b then b else a
  }

  function LaterDate(a: Option<Date>, b: Option<Date>): Option<Date> {
    if a.Some? && b.Some? then (if a.value < b.value then b else a)
    else if a.Some? then a else b
  }

  function Enabled(a: Option<bool>, b: Option<bool>): Option<bool> {
    if a == Some(true) || b == Some(true) then Some(true)
    else if a == Some(false) || b == Some(false) then Some(false)
    else None
  }

  /** `_merge_user_detail_row` */
  function MergeUserDetailRow(left: UserRow, right: UserRow): UserRow {
    var swap := Below(UserDetailRowScore(left), UserDetailRowScore(right));
    var winner := if swap then right else left;
    var other := if swap then left else right;
    winner.(entraUserId := Or(winner.entraUserId, other.entraUserId),
            userPrincipalName := Or(winner.userPrincipalName, other.userPrincipalName),
            displayName := Or(winner.displayName, other.displayName),
            department := Or(winner.department, other.department),
            officeLocation := Or(winner.officeLocation, other.officeLocation),
            lastActivityDate := LaterDate(left.lastActivityDate, right.lastActivityDate),
            reportRefreshDate := LaterDate(left.reportRefreshDate, right.reportRefreshDate),
            reportPeriod := MaxInt(left.reportPeriod, right.reportPeriod),
            enabledForCopilot := Enabled(left.enabledForCopilot, right.enabledForCopilot),
            activeInPeriod := left.activeInPeriod || right.activeInPeriod)
  }

  // ------------------------------------------------------------------------------- the join

  /** The facts of a row, each as a rank: missing < any date; unknown < false < true. */
  datatype Facts = Facts(activity: int, refresh: int, period: int, enabled: int, active: int)

  function DateRank(d: Option<Date>): int {
    match d
    case None => -1
    case Some(v) => v
  }

  function FactsOf(r: UserRow): Facts {
    Facts(DateRank(r.lastActivityDate), DateRank(r.reportRefreshDate), r.reportPeriod,
          match r.enabledForCopilot case None => 0 case Some(b) => 1 + One(b), One(r.activeInPeriod))
  }

  predicate AtMost(a: Facts, b: Facts) {
    a.activity <= b.activity && a.refresh <= b.refresh && a.period <= b.period && a.enabled <= b.enabled
    && a.active <= b.active
  }

  function Join(a: Facts, b: Facts): Facts {
    Facts(MaxInt(a.activity, b.activity), MaxInt(a.refresh, b.refresh), MaxInt(a.period, b.period),
          MaxInt(a.enabled, b.enabled), MaxInt(a.active, b.active))
  }

  /** The merged row carries the join of the two rows' facts, keeps the key, and scores at least as high as either. */
  lemma MergeIsJoin(a: UserRow, b: UserRow)
    ensures FactsOf(MergeUserDetailRow(a, b)) == Join(FactsOf(a), FactsOf(b))
    ensures KeyOf(a) == KeyOf(b) ==> KeyOf(MergeUserDetailRow(a, b)) == KeyOf(a)
    ensures !Below(UserDetailRowScore(MergeUserDetailRow(a, b)), UserDetailRowScore(a))
    ensures !Below(UserDetailRowScore(MergeUserDetailRow(a, b)), UserDetailRowScore(b))
  {
  }

  lemma MergeKeepsKey()
    ensures KeepsKey(KeyOf, MergeUserDetailRow)
  {
    forall a, b | KeyOf(a) == KeyOf(b) ensures KeyOf(MergeUserDetailRow(a, b)) == KeyOf(a) {
      MergeIsJoin(a, b);
    }
  }

  /** `f` is the least upper bound of the facts of key `k`: no row exceeds it, and each component is some row's. */
  ghost predicate IsJoinOf(f: Facts, rows: seq<UserRow>, k: UserKey) {
    && (forall r :: r in rows && KeyOf(r) == k ==> AtMost(FactsOf(r), f))
    && (exists r :: r in rows && KeyOf(r) == k && FactsOf(r).activity == f.activity)
    && (exists r :: r in rows && KeyOf(r) == k && FactsOf(r).refresh == f.refresh)
    && (exists r :: r in rows && KeyOf(r) == k && FactsOf(r).period == f.period)
    && (exists r :: r in rows && KeyOf(r) == k && FactsOf(r).enabled == f.enabled)
    && (exists r :: r in rows && KeyOf(r) == k && FactsOf(r).active == f.active)
  }

  ghost predicate NoneOf(rows: seq<UserRow>, k: UserKey) {
    forall r :: r in rows ==> KeyOf(r) != k
  }

  lemma ScoreTransitive(a: Score, b: Score, c: Score)
    requires !Below(b, a) && !Below(c, b)
    ensures !Below(c, a)
  {
  }

  lemma {:induction false} MergedIsJoin(rows: seq<UserRow>, k: UserKey)
    ensures
      match Merged(KeyOf, MergeUserDetailRow, rows, k)
      case None => NoneOf(rows, k)
      case Some(m) => IsJoinOf(FactsOf(m), rows, k)
  {
    if rows != [] {
      var before, row := rows[..|rows| - 1], rows[|rows| - 1];
      assert before + [row] == rows;
      MergedIsJoin(before, k);
      match Merged(KeyOf, MergeUserDetailRow, before, k) {
        case None =>
          if KeyOf(row) == k {
            JoinOfOne(before, row, k);
          }
        case Some(m) =>
          if KeyOf(row) == k {
            MergeIsJoin(m, row);
            JoinExtends(FactsOf(m), before, row, k);
          } else {
            JoinIgnores(FactsOf(m), before, row, k);
          }
      }
    }
  }

  lemma {:induction false} MergedScoresHighest(rows: seq<UserRow>, k: UserKey)
    ensures
      match Merged(KeyOf, MergeUserDetailRow, rows, k)
      case None => NoneOf(rows, k)
      case Some(m) => forall r :: r in rows && KeyOf(r) == k ==> !Below(UserDetailRowScore(m), UserDetailRowScore(r))
  {
    if rows != [] {
      var before, row := rows[..|rows| - 1], rows[|rows| - 1];
      assert before + [row] == rows;
      MergedScoresHighest(before, k);
      var m := Merged(KeyOf, MergeUserDetailRow, before, k);
      if m.Some? && KeyOf(row) == k {
        var merged := MergeUserDetailRow(m.value, row);
        MergeIsJoin(m.value, row);
        forall r | r in before && KeyOf(r) == k
          ensures !Below(UserDetailRowScore(merged), UserDetailRowScore(r))
        {
          ScoreTransitive(UserDetailRowScore(r), UserDetailRowScore(m.value), UserDetailRowScore(merged));
        }
      }
    }
  }

  datatype IdentityField = EntraUserId | UserPrincipalName | DisplayName | Department | OfficeLocation | RawJson

  function Text(r: UserRow, f: IdentityField): string {
    match f
    case EntraUserId => r.entraUserId
    case UserPrincipalName => r.userPrincipalName
    case DisplayName => r.displayName
    case Department => r.department
    case OfficeLocation => r.officeLocation
    case RawJson => r.rawJson
  }

  ghost predicate SomeRowHas(rows: seq<UserRow>, k: UserKey, f: IdentityField, text: string) {
    exists r :: r in rows && KeyOf(r) == k && Text(r, f) == text
  }

  /** The merged row's text is one of its key's rows' own, and an identity text is blank only if all of theirs are. */
  ghost predicate TextIsKept(m: UserRow, rows: seq<UserRow>, k: UserKey, f: IdentityField) {
    && SomeRowHas(rows, k, f, Text(m, f))
    && (!f.RawJson? && Text(m, f) == "" ==> forall r :: r in rows && KeyOf(r) == k ==> Text(r, f) == "")
  }

  /** What a row is judged by, the weightiest first. */
  function Merits(r: UserRow): seq<int> {
    [if r.activeInPeriod then 1 else 0, if r.lastActivityDate.Some? then r.lastActivityDate.value else 0,
     if r.reportRefreshDate.Some? then r.reportRefreshDate.value else 0, r.reportPeriod,
     (if r.entraUserId != "" then 1 else 0) + (if r.userPrincipalName != "" then 1 else 0)
     + (if r.displayName != "" then 1 else 0) + (if r.department != "" then 1 else 0)
     + if r.officeLocation != "" then 1 else 0]
  }

  /** The first merit in which the rows differ is greater in `b`. */
  ghost predicate Outscores(b: UserRow, a: UserRow) {
    exists i :: 0 <= i < 5 && Exceeds(Merits(b), Merits(a), i)
  }

  predicate Exceeds(t: seq<int>, s: seq<int>, i: nat)
    requires |s| == |t| == 5 && i < 5
  {
    s[i] < t[i] && s[..i] == t[..i]
  }

  lemma BelowIffOutscored(a: UserRow, b: UserRow)
    ensures Below(UserDetailRowScore(a), UserDetailRowScore(b)) <==> Outscores(b, a)
  {
    var s, t := Merits(a), Merits(b);
    if Below(UserDetailRowScore(a), UserDetailRowScore(b)) {
      var i := if s[0] != t[0] then 0 else if s[1] != t[1] then 1 else if s[2] != t[2] then 2
               else if s[3] != t[3] then 3 else 4;
      assert Exceeds(t, s, i);
    }
    if Outscores(b, a) {
      var i :| 0 <= i < 5 && Exceeds(t, s, i);
      assert forall j :: 0 <= j < i ==> s[j] == s[..i][j] == t[..i][j] == t[j];
      assert (i > 0 ==> s[0] == t[0]) && (i > 1 ==> s[1] == t[1]) && (i > 2 ==> s[2] == t[2])
             && (i > 3 ==> s[3] == t[3]);
    }
  }

  /** Each text of the merged row is that of the row that scores higher, the first if neither does; an identity text
      that is blank there is the other's. */
  lemma MergeKeepsText(a: UserRow, b: UserRow, f: IdentityField)
    ensures
      var winner, other := if Outscores(b, a) then b else a, if Outscores(b, a) then a else b;
      Text(MergeUserDetailRow(a, b), f)
      == if Text(winner, f) != "" || f.RawJson? then Text(winner, f) else Text(other, f)
  {
    BelowIffOutscored(a, b);
  }

  lemma {:induction false} MergedKeepsText(rows: seq<UserRow>, k: UserKey, f: IdentityField)
    ensures
      match Merged(KeyOf, MergeUserDetailRow, rows, k)
      case None => NoneOf(rows, k)
      case Some(m) => TextIsKept(m, rows, k, f)
  {
    if rows != [] {
      var before, row := rows[..|rows| - 1], rows[|rows| - 1];
      assert before + [row] == rows;
      MergedKeepsText(before, k, f);
      var m := Merged(KeyOf, MergeUserDetailRow, before, k);
      if m.Some? {
        var r :| r in before && KeyOf(r) == k && Text(r, f) == Text(m.value, f);
        assert r in rows && row in rows;
        MergeKeepsText(m.value, row, f);
      }
    }
  }

  lemma JoinOfOne(rows: seq<UserRow>, row: UserRow, k: UserKey)
    requires NoneOf(rows, k) && KeyOf(row) == k
    ensures IsJoinOf(FactsOf(row), rows + [row], k)
  {
    assert row in rows + [row];
  }

  lemma JoinIgnores(f: Facts, rows: seq<UserRow>, row: UserRow, k: UserKey)
    requires IsJoinOf(f, rows, k) && KeyOf(row) != k
    ensures IsJoinOf(f, rows + [row], k)
  {
    assert forall r :: r in rows ==> r in rows + [row];
  }

  lemma JoinExtends(f: Facts, rows: seq<UserRow>, row: UserRow, k: UserKey)
    requires IsJoinOf(f, rows, k) && KeyOf(row) == k
    ensures IsJoinOf(Join(f, FactsOf(row)), rows + [row], k)
  {
    var all := rows + [row];
    assert row in all && forall r :: r in rows ==> r in all;
  }

  /** The row carries the join of its key's facts, scores at least as high as every row of its key, and has a text of
      theirs in each field. */
  ghost predicate Merges(m: UserRow, rows: seq<UserRow>) {
    && IsJoinOf(FactsOf(m), rows, KeyOf(m))
    && (forall r :: r in rows && KeyOf(r) == KeyOf(m) ==> !Below(UserDetailRowScore(m), UserDetailRowScore(r)))
    && forall f :: TextIsKept(m, rows, KeyOf(m), f)
  }

  lemma MergedRowMerges(rows: seq<UserRow>, m: UserRow)
    requires Merged(KeyOf, MergeUserDetailRow, rows, KeyOf(m)) == Some(m)
    ensures Merges(m, rows)
  {
    MergedIsJoin(rows, KeyOf(m));
    MergedScoresHighest(rows, KeyOf(m));
    forall f ensures TextIsKept(m, rows, KeyOf(m), f) {
      MergedKeepsText(rows, KeyOf(m), f);
    }
  }

  /** No two rows agree in period and user, and every row's period and user are there. */
  ghost predicate OnePerUser(rows: seq<UserRow>, out: seq<UserRow>) {
    && (forall i, j :: 0 <= i < j < |out| ==>
          out[i].sourcePeriod != out[j].sourcePeriod || out[i].reportUserKey != out[j].reportUserKey)
    && forall r :: r in rows ==>
         exists m :: m in out && m.sourcePeriod == r.sourcePeriod && m.reportUserKey == r.reportUserKey
  }

  lemma OneRowPerUser(rows: seq<UserRow>, out: seq<UserRow>)
    requires Keys(KeyOf, out) == FirstSeen(KeyOf, rows) && Distinct(Keys(KeyOf, out))
    ensures OnePerUser(rows, out)
  {
    var ks := Keys(KeyOf, out);
    forall i, j | 0 <= i < j < |out|
      ensures out[i].sourcePeriod != out[j].sourcePeriod || out[i].reportUserKey != out[j].reportUserKey
    {
      assert ks[i] != ks[j];
    }
    forall r | r in rows
      ensures exists m :: m in out && m.sourcePeriod == r.sourcePeriod && m.reportUserKey == r.reportUserKey
    {
      FirstSeenIsAll(KeyOf, rows, KeyOf(r));
      var p :| 0 <= p < |rows| && rows[p] == r;
      assert KeyOf(rows[p]) == KeyOf(r) && KeyOf(r) in ks;
      var q :| 0 <= q < |ks| && ks[q] == KeyOf(r);
      assert out[q] in out && KeyOf(out[q]) == KeyOf(r);
    }
  }

  /** `_dedupe_user_detail_rows` gives one row per key, in first-seen order; each carries exactly the join of its key's
      facts and scores at least as high as every row it absorbed. */
  method DedupeUserDetailRows(rows: seq<UserRow>) returns (out: seq<UserRow>)
    ensures out == Collect(KeyOf, MergeUserDetailRow, rows)
    ensures Keys(KeyOf, out) == FirstSeen(KeyOf, rows) && Distinct(Keys(KeyOf, out))
    ensures OnePerUser(rows, out)
    ensures forall m :: m in out ==> Merges(m, rows)
  {
    MergeKeepsKey();
    out := CollectInto(KeyOf, MergeUserDetailRow, rows);
    CollectMerges(KeyOf, MergeUserDetailRow, rows);
    OneRowPerUser(rows, out);
    forall m | m in out ensures Merges(m, rows) {
      MergedRowMerges(rows, m);
    }
  }

  /** Deduplicating again, as the upsert does, changes nothing. */
  lemma DedupeIsIdempotent(rows: seq<UserRow>)
    ensures Collect(KeyOf, MergeUserDetailRow, Collect(KeyOf, MergeUserDetailRow, rows))
            == Collect(KeyOf, MergeUserDetailRow, rows)
  {
    MergeKeepsKey();
    CollectIsIdempotent(KeyOf, MergeUserDetailRow, rows);
  }

  /** The facts do not depend on the order of the rows. */
  lemma FactsIgnoreOrder(a: seq<UserRow>, b: seq<UserRow>, k: UserKey)
    requires multiset(a) == multiset(b)
    ensures
      match (Merged(KeyOf, MergeUserDetailRow, a, k), Merged(KeyOf, MergeUserDetailRow, b, k))
      case (Some(m), Some(n)) => FactsOf(m) == FactsOf(n)
      case (None, None) => true
      case _ => false
  {
    MergedIsJoin(a, k);
    MergedIsJoin(b, k);
    SameMembers(a, b);
    match (Merged(KeyOf, MergeUserDetailRow, a, k), Merged(KeyOf, MergeUserDetailRow, b, k))
    case (Some(m), Some(n)) => JoinIsUnique(FactsOf(m), FactsOf(n), a, b, k);
    case _ =>
  }

  lemma SameMembers(a: seq<UserRow>, b: seq<UserRow>)
    requires multiset(a) == multiset(b)
    ensures forall r :: r in a <==> r in b
  {
    assert forall r :: r in a <==> r in multiset(a);
    assert forall r :: r in b <==> r in multiset(b);
  }

  lemma JoinIsUnique(f: Facts, g: Facts, a: seq<UserRow>, b: seq<UserRow>, k: UserKey)
    requires IsJoinOf(f, a, k) && IsJoinOf(g, b, k) && forall r :: r in a <==> r in b
    ensures f == g
  {
  }

  // ------------------------------------------------------------------------------- trend rows

  datatype TrendRow = TrendRow(reportDate: Date, reportPeriod: int, enabledUsers: int, activeUsers: int,
                               rawJson: string)

  function DateOf(r: TrendRow): Date {
    r.reportDate
  }

  /** The later row replaces the one kept unless its period is shorter. */
  function LongerPeriod(kept: TrendRow, next: TrendRow): TrendRow {
    if next.reportPeriod >= kept.reportPeriod then next else kept
  }

  /** `rows[i]` is the last among the rows of its date with the longest period. */
  predicate LastLongest(rows: seq<TrendRow>, i: nat) {
    i < |rows| && forall j :: 0 <= j < |rows| && rows[j].reportDate == rows[i].reportDate ==>
                                rows[j].reportPeriod < rows[i].reportPeriod
                                || (rows[j].reportPeriod == rows[i].reportPeriod && j <= i)
  }

  lemma {:induction false} MergedIsLastLongest(rows: seq<TrendRow>, d: Date) returns (i: nat)
    ensures
      match Merged(DateOf, LongerPeriod, rows, d)
      case None => forall j :: 0 <= j < |rows| ==> rows[j].reportDate != d
      case Some(m) => m.reportDate == d && LastLongest(rows, i) && rows[i] == m
  {
    i := 0;
    if rows != [] {
      var n := |rows| - 1;
      var before := rows[..n];
      i := MergedIsLastLongest(before, d);
      assert forall j :: 0 <= j < n ==> rows[j] == before[j];
      if rows[n].reportDate == d
         && (Merged(DateOf, LongerPeriod, before, d).None? || rows[n].reportPeriod >= before[i].reportPeriod) {
        i := n;
      }
    }
  }

  ghost predicate OnePerDate(rows: seq<TrendRow>, out: seq<TrendRow>) {
    && (forall i, j :: 0 <= i < j < |out| ==> out[i].reportDate != out[j].reportDate)
    && forall r :: r in rows ==> exists m :: m in out && m.reportDate == r.reportDate
  }

  lemma OneRowPerDate(rows: seq<TrendRow>, out: seq<TrendRow>)
    requires Keys(DateOf, out) == FirstSeen(DateOf, rows) && Distinct(Keys(DateOf, out))
    ensures OnePerDate(rows, out)
  {
    var ks := Keys(DateOf, out);
    forall i, j | 0 <= i < j < |out| ensures out[i].reportDate != out[j].reportDate {
      assert ks[i] != ks[j];
    }
    forall r | r in rows ensures exists m :: m in out && m.reportDate == r.reportDate {
      FirstSeenIsAll(DateOf, rows, r.reportDate);
      var p :| 0 <= p < |rows| && rows[p] == r;
      assert DateOf(rows[p]) == r.reportDate && r.reportDate in ks;
      var q :| 0 <= q < |ks| && ks[q] == r.reportDate;
      assert out[q] in out && out[q].reportDate == r.reportDate;
    }
  }

  /** The end of `_normalize_trend_rows`: one row per date - so no batch names a conflict key twice -, the last among
      those of the longest period. */
  method KeepLongestPeriod(rows: seq<TrendRow>) returns (out: seq<TrendRow>)
    ensures Distinct(Keys(DateOf, out)) && Keys(DateOf, out) == FirstSeen(DateOf, rows)
    ensures forall m :: m in out ==> exists i: nat :: LastLongest(rows, i) && rows[i] == m
    ensures OnePerDate(rows, out)
  {
    out := CollectInto(DateOf, LongerPeriod, rows);
    CollectMerges(DateOf, LongerPeriod, rows);
    OneRowPerDate(rows, out);
    forall m | m in out ensures exists i: nat :: LastLongest(rows, i) && rows[i] == m {
      var i := MergedIsLastLongest(rows, m.reportDate);
    }
  }
}
