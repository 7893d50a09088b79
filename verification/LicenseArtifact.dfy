/** The signed licence of worker/app/license.py: payload, delimiter, signature. Verification of the signature and the
    reading of timestamps are parameters. */
module LicenseArtifact {
  import opened Options
  import opened CanonicalJson
  import opened CanonicalForm

  type Time = int          // microseconds, UTC

  datatype Outcome<+T, +E> = Ok(value: T) | Err(error: E)

  datatype Failure =
    | DelimiterMissing | DelimiterDuplicated | SignatureMissing | SignatureInvalid
    | NotJson | PayloadInvalid | SchemaVersionInvalid | LicenseIdRequired | LicenseTypeRequired | TenantIdRequired
    | TimestampRequired(field: string) | TimestampInvalid(field: string)
    | FeaturesInvalid | FeatureInvalid(feature: Feature)
    | NotCanonical | SignatureMismatch
    | TenantNotConfigured | TenantMismatch | Expired | LicenseMissing | RowMissing

  // ------------------------------------------------------------------------------- text

  /** `value.replace("\r\n", "\n")` */
  function NormalizeNewlines(s: string): string {
    if s == "" then ""
    else if |s| >= 2 && s[0] == '\r' && s[1] == '\n' then ['\n'] + NormalizeNewlines(s[2..])
    else [s[0]] + NormalizeNewlines(s[1..])
  }

  predicate OccursAt(s: string, i: int, pattern: string) {
    0 <= i && i + |pattern| <= |s| && s[i..i + |pattern|] == pattern
  }

  /** `s.find(pattern, from)` */
  function Find(s: string, pattern: string, from: nat): (r: Option<nat>)
    ensures r.Some? ==> from <= r.value && OccursAt(s, r.value, pattern)
    ensures forall i :: from <= i && (r.Some? ==> i < r.value) ==> !OccursAt(s, i, pattern)
    decreases |s| - from
  {
    if OccursAt(s, from, pattern) then Some(from)
    else if from >= |s| then None
    else Find(s, pattern, from + 1)
  }

  /** `str.isspace` of one character. */
  predicate IsSpace(c: char) {
    var n := c as int;
    || 9 <= n <= 13 || 28 <= n <= 32 || n == 0x85 || n == 0xA0 || n == 0x1680 || 0x2000 <= n <= 0x200A
    || n == 0x2028 || n == 0x2029 || n == 0x202F || n == 0x205F || n == 0x3000
  }

  /** The 29 white-space characters of Python. */
  lemma WhiteSpaceIs(c: char)
    ensures IsSpace(c)
            <==> c as int in {0x09, 0x0A, 0x0B, 0x0C, 0x0D, 0x1C, 0x1D, 0x1E, 0x1F, 0x20, 0x85, 0xA0, 0x1680, 0x2000,
                              0x2001, 0x2002, 0x2003, 0x2004, 0x2005, 0x2006, 0x2007, 0x2008, 0x2009, 0x200A, 0x2028,
                              0x2029, 0x202F, 0x205F, 0x3000}
  {
  }

  predicate AllSpace(s: string) {
    forall i :: 0 <= i < |s| ==> IsSpace(s[i])
  }

  predicate NoSpace(s: string) {
    forall i :: 0 <= i < |s| ==> !IsSpace(s[i])
  }

  function StripLeft(s: string): string {
    if s != "" && IsSpace(s[0]) then StripLeft(s[1..]) else s
  }

  function StripRight(s: string): string {
    if s != "" && IsSpace(s[|s| - 1]) then StripRight(s[..|s| - 1]) else s
  }

  function Strip(s: string): string {
    StripRight(StripLeft(s))
  }

  /** What is stripped is white space, and what is left does not begin or end with any. */
  lemma {:induction false} StripLeftSplits(s: string) returns (w: string)
    ensures AllSpace(w) && s == w + StripLeft(s)
    ensures StripLeft(s) != "" ==> !IsSpace(StripLeft(s)[0])
  {
    w := "";
    if s != "" && IsSpace(s[0]) {
      w := StripLeftSplits(s[1..]);
      w := [s[0]] + w;
      assert s == [s[0]] + s[1..];
    }
  }

  lemma {:induction false} StripRightSplits(s: string) returns (w: string)
    ensures AllSpace(w) && s == StripRight(s) + w
  {
    w := "";
    if s != "" && IsSpace(s[|s| - 1]) {
      w := StripRightSplits(s[..|s| - 1]);
      w := w + [s[|s| - 1]];
      assert s == s[..|s| - 1] + [s[|s| - 1]];
    }
  }

  lemma {:induction false} StripLeftOf(w: string, s: string)
    requires AllSpace(w) && (s != "" ==> !IsSpace(s[0]))
    ensures StripLeft(w + s) == s
  {
    if w == "" {
      assert w + s == s;
    } else {
      assert (w + s)[1..] == w[1..] + s;
      StripLeftOf(w[1..], s);
    }
  }

  lemma {:induction false} StripRightOf(s: string, w: string)
    requires AllSpace(w) && (s != "" ==> !IsSpace(s[|s| - 1]))
    ensures StripRight(s + w) == s
  {
    if w == "" {
      assert s + w == s;
    } else {
      assert (s + w)[..|s + w| - 1] == s + w[..|w| - 1];
      StripRightOf(s, w[..|w| - 1]);
    }
  }

  lemma StripOf(w1: string, s: string, w2: string)
    requires AllSpace(w1) && AllSpace(w2) && s != "" && NoSpace(s)
    ensures Strip(w1 + (s + w2)) == s
  {
    StripLeftOf(w1, s + w2);
    StripRightOf(s, w2);
  }

  // ------------------------------------------------------------------------------- splitting

  const MARK := "---SIGNATURE---"
  const DELIMITER := ['\n'] + MARK + ['\n']

  datatype Parts = Parts(payload: string, signature: string)

  /** The first half of `inspect_license_artifact`, on normalised text. */
  function Split(text: string): Outcome<Parts, Failure> {
    match Find(text, DELIMITER, 0)
    case None => Err(DelimiterMissing)
    case Some(at) =>
      if Find(text, DELIMITER, at + |DELIMITER|).Some? then Err(DelimiterDuplicated)
      else
        var signature := Strip(text[at + |DELIMITER|..]);
        if signature == "" then Err(SignatureMissing)
        else if exists i :: 0 <= i < |signature| && IsSpace(signature[i]) then Err(SignatureInvalid)
        else Ok(Parts(text[..at], signature))
  }

  /** The delimiter stands at `at`, nowhere before, and nowhere after its end. */
  ghost predicate OnlyDelimiter(text: string, at: nat) {
    && OccursAt(text, at, DELIMITER)
    && (forall i :: 0 <= i < at ==> !OccursAt(text, i, DELIMITER))
    && forall i :: at + |DELIMITER| <= i ==> !OccursAt(text, i, DELIMITER)
  }

  function Joined(p: Parts, before: string, after: string): string {
    p.payload + (DELIMITER + (before + (p.signature + after)))
  }

  ghost predicate Composed(text: string, p: Parts, before: string, after: string) {
    && AllSpace(before) && AllSpace(after) && p.signature != "" && NoSpace(p.signature)
    && text == Joined(p, before, after) && OnlyDelimiter(text, |p.payload|)
  }

  lemma AfterDelimiter(p: Parts, before: string, after: string)
    ensures var text := Joined(p, before, after);
            && text[..|p.payload|] == p.payload
            && text[|p.payload| + |DELIMITER|..] == before + (p.signature + after)
            && OccursAt(text, |p.payload|, DELIMITER)
  {
    var text, tail := Joined(p, before, after), before + (p.signature + after);
    assert text[|p.payload|..] == DELIMITER + tail;
  }

  lemma SplitsAt(text: string, at: nat, tail: string)
    requires OccursAt(text, at, DELIMITER) && tail == text[at + |DELIMITER|..]
    ensures text == text[..at] + (DELIMITER + tail)
  {
    assert text == text[..at] + (text[at..at + |DELIMITER|] + tail);
  }

  lemma SplitIsComposed(text: string, p: Parts) returns (before: string, after: string)
    requires Split(text) == Ok(p)
    ensures Composed(text, p, before, after)
  {
    var at := Find(text, DELIMITER, 0).value;
    var tail := text[at + |DELIMITER|..];
    before := StripLeftSplits(tail);
    after := StripRightSplits(StripLeft(tail));
    SplitsAt(text, at, tail);
  }

  /** Splitting accepts exactly the texts composed of a payload, one delimiter, and a signature without white space that
      may have white space around it; and it returns their two parts. */
  lemma SplitIffComposed(text: string, p: Parts)
    ensures Split(text) == Ok(p) <==> exists before, after :: Composed(text, p, before, after)
  {
    if Split(text) == Ok(p) {
      var before, after := SplitIsComposed(text, p);
    }
    forall before, after | Composed(text, p, before, after) ensures Split(text) == Ok(p) {
      AfterDelimiter(p, before, after);
      StripOf(before, p.signature, after);
    }
  }

  /** A delimiter can hide in the signature only if the signature is the mark itself on a line of its own. */
  lemma HiddenDelimiter(before: string, s: string, after: string, j: nat)
    requires AllSpace(before) && AllSpace(after) && NoSpace(s)
    requires OccursAt(before + (s + after), j, DELIMITER)
    ensures s == MARK && before != "" && before[|before| - 1] == '\n' && after != "" && after[0] == '\n'
    ensures j == |before| - 1
  {
    var tail := before + (s + after);
    var hidden := tail[j..j + |DELIMITER|];
    assert hidden == DELIMITER;
    assert hidden[0] == '\n' && hidden[1] == '-' && hidden[15] == '-' && hidden[16] == '\n';
    assert tail[j] == '\n' && tail[j + 1] == '-' && tail[j + 15] == '-' && tail[j + 16] == '\n';
    assert j == |before| - 1 && j + 16 == |before| + |s|;
    assert s == tail[j + 1..j + 16] == hidden[1..16] == MARK;
  }

  predicate SignatureIsMark(before: string, s: string, after: string) {
    s == MARK && before != "" && before[|before| - 1] == '\n' && after != "" && after[0] == '\n'
  }

  lemma MarkHides(before: string, s: string, after: string)
    requires SignatureIsMark(before, s, after)
    ensures OccursAt(before + (s + after), |before| - 1, DELIMITER)
  {
    var tail, j := before + (s + after), |before| - 1;
    assert before == before[..j] + ['\n'] && after == ['\n'] + after[1..];
    assert tail == before[..j] + (DELIMITER + after[1..]);
  }

  lemma OccursBehind(p: Parts, before: string, after: string, i: int)
    requires |p.payload| + |DELIMITER| <= i
    ensures OccursAt(Joined(p, before, after), i, DELIMITER)
            <==> OccursAt(before + (p.signature + after), i - |p.payload| - |DELIMITER|, DELIMITER)
  {
    AfterDelimiter(p, before, after);
    var text, k := Joined(p, before, after), |p.payload| + |DELIMITER|;
    if i + |DELIMITER| <= |text| {
      assert text[k..][i - k..i - k + |DELIMITER|] == text[i..i + |DELIMITER|];
    }
  }

  lemma BreaksLine(s: string, i: nat)
    requires i < |s|
    ensures OccursAt(s, i, DELIMITER) ==> s[i] == '\n'
  {
    if OccursAt(s, i, DELIMITER) {
      assert s[i..i + |DELIMITER|][0] == DELIMITER[0];
    }
  }

  /** A payload without control characters, a delimiter and a signature come apart again, unless the signature is the
      delimiter's own mark on a line of its own. */
  lemma JoinedSplits(p: Parts, before: string, after: string)
    requires NoControls(p.payload) && AllSpace(before) && AllSpace(after) && p.signature != "" && NoSpace(p.signature)
    ensures Split(Joined(p, before, after))
            == if SignatureIsMark(before, p.signature, after) then Err(DelimiterDuplicated) else Ok(p)
  {
    var text, end := Joined(p, before, after), |p.payload| + |DELIMITER|;
    AfterDelimiter(p, before, after);
    forall i | 0 <= i < |p.payload| ensures !OccursAt(text, i, DELIMITER) {
      BreaksLine(text, i);
      assert text[i] >= ' ';
    }
    assert Find(text, DELIMITER, 0) == Some(|p.payload|);
    if SignatureIsMark(before, p.signature, after) {
      MarkHides(before, p.signature, after);
      OccursBehind(p, before, after, end + |before| - 1);
    } else {
      forall i | end <= i ensures !OccursAt(text, i, DELIMITER) {
        OccursBehind(p, before, after, i);
        if OccursAt(text, i, DELIMITER) {
          HiddenDelimiter(before, p.signature, after, i - end);
        }
      }
      StripOf(before, p.signature, after);
    }
  }

  // ------------------------------------------------------------------------------- CRLF

  lemma NormalizePair(rest: string)
    ensures NormalizeNewlines(['\r', '\n'] + rest) == ['\n'] + NormalizeNewlines(rest)
  {
    assert (['\r', '\n'] + rest)[2..] == rest;
  }

  lemma NormalizeOne(c: char, rest: string)
    requires c != '\r' || rest == "" || rest[0] != '\n'
    ensures NormalizeNewlines([c] + rest) == [c] + NormalizeNewlines(rest)
  {
    assert ([c] + rest)[1..] == rest;
  }

  lemma {:induction false} NormalizeConcat(a: string, b: string)
    requires a == "" || b == "" || a[|a| - 1] != '\r' || b[0] != '\n'
    ensures NormalizeNewlines(a + b) == NormalizeNewlines(a) + NormalizeNewlines(b)
    decreases |a|
  {
    if a == "" {
      assert a + b == b;
    } else if |a| >= 2 && a[0] == '\r' && a[1] == '\n' {
      var rest := a[2..];
      assert a == ['\r', '\n'] + rest && a + b == ['\r', '\n'] + (rest + b);
      NormalizePair(rest);
      NormalizePair(rest + b);
      NormalizeConcat(rest, b);
    } else {
      var rest := a[1..];
      assert a == [a[0]] + rest && a + b == [a[0]] + (rest + b);
      NormalizeOne(a[0], rest);
      NormalizeOne(a[0], rest + b);
      NormalizeConcat(rest, b);
    }
  }

  lemma {:induction false} NormalizeNothing(s: string)
    requires forall i :: 0 <= i < |s| ==> s[i] != '\r'
    ensures NormalizeNewlines(s) == s
  {
    if s != "" {
      NormalizeNothing(s[1..]);
      assert s == [s[0]] + s[1..];
    }
  }

  lemma {:induction false} NormalizeSpace(w: string)
    requires AllSpace(w)
    ensures AllSpace(NormalizeNewlines(w))
    decreases |w|
  {
    if |w| >= 2 && w[0] == '\r' && w[1] == '\n' {
      NormalizeSpace(w[2..]);
    } else if w != "" {
      NormalizeSpace(w[1..]);
    }
  }

  /** The delimiter as an editor with the other line ends writes it. */
  const DELIMITER_CRLF := ['\r', '\n'] + MARK + ['\r', '\n']

  lemma NormalizeDelimiter(d: string)
    requires d == DELIMITER || d == DELIMITER_CRLF
    ensures NormalizeNewlines(d) == DELIMITER
  {
    if d == DELIMITER {
      NormalizeNothing(d);
    } else {
      NormalizeNothing(MARK);
      NormalizeConcat(['\r', '\n'], MARK);
      NormalizeConcat(['\r', '\n'] + MARK, ['\r', '\n']);
      assert ['\r', '\n'][2..] == "";
    }
  }

  /** A stored artifact, with either kind of line end: splitting it gives the payload and the signature. */
  lemma ArtifactSplits(p: Parts, d: string, before: string, after: string)
    requires NoControls(p.payload) && AllSpace(before) && AllSpace(after)
    requires p.signature != "" && NoSpace(p.signature) && p.signature != MARK
    requires d == DELIMITER || d == DELIMITER_CRLF
    ensures Split(NormalizeNewlines(p.payload + (d + (before + (p.signature + after))))) == Ok(p)
  {
    var s := p.signature;
    NormalizeNothing(p.payload);
    NormalizeNothing(s);
    NormalizeDelimiter(d);
    NormalizeConcat(s, after);
    NormalizeConcat(before, s + after);
    NormalizeConcat(d, before + (s + after));
    NormalizeConcat(p.payload, d + (before + (s + after)));
    NormalizeSpace(before);
    NormalizeSpace(after);
    JoinedSplits(p, NormalizeNewlines(before), NormalizeNewlines(after));
  }

  // ------------------------------------------------------------------------------- the payload

  /** `value.get(key)`: null and absent are the same. */
  function Get(fields: seq<Field>, key: string): Json {
    if fields == [] then Null else if fields[0].key == key then fields[0].value else Get(fields[1..], key)
  }

  function NonEmptyString(v: Json): Option<string> {
    if v.Str? && Strip(v.s) != "" then Some(Strip(v.s)) else None
  }

  type Clock = string -> Option<Time>

  /** Timestamps are kept to the millisecond. */
  function RequiredTimestamp(v: Json, field: string, read: Clock): Outcome<Time, Failure> {
    if !v.Str? || Strip(v.s) == "" then Err(TimestampRequired(field))
    else match read(Strip(v.s))
      case None => Err(TimestampInvalid(field))
      case Some(t) => Ok(t / 1000 * 1000)
  }

  function OptionalTimestamp(v: Json, field: string, read: Clock): Outcome<Option<Time>, Failure> {
    if v.Null? then Ok(None)
    else match RequiredTimestamp(v, field, read)
      case Err(e) => Err(e)
      case Ok(t) => Ok(Some(t))
  }

  /** The features, in the order of `LICENSE_FEATURE_DEFAULTS`; the first four are readable without a licence. */
  datatype Feature =
    | DashboardRead | LiveGraphRead | AdminView | LicenseManage
    | PermissionRevoke | JobControl | GraphIngest | CopilotTelemetry | AgentsDashboard | CopilotUsageSync
    | CopilotDashboard

  /** The features that are on. */
  type Features = set<Feature>

  predicate NeedsLicense(f: Feature) {
    !f.DashboardRead? && !f.LiveGraphRead? && !f.AdminView? && !f.LicenseManage?
  }

  function DefaultFeatures(): (features: Features)
    ensures forall f :: f in features <==> !NeedsLicense(f)
  {
    {DashboardRead, LiveGraphRead, AdminView, LicenseManage}
  }

  const ALL_FEATURES := [DashboardRead, LiveGraphRead, AdminView, LicenseManage, PermissionRevoke, JobControl,
                         GraphIngest, CopilotTelemetry, AgentsDashboard, CopilotUsageSync, CopilotDashboard]

  function Name(f: Feature): string {
    match f
    case DashboardRead => "dashboard_read"
    case LiveGraphRead => "live_graph_read"
    case AdminView => "admin_view"
    case LicenseManage => "license_manage"
    case PermissionRevoke => "permission_revoke"
    case JobControl => "job_control"
    case GraphIngest => "graph_ingest"
    case CopilotTelemetry => "copilot_telemetry"
    case AgentsDashboard => "agents_dashboard"
    case CopilotUsageSync => "copilot_usage_sync"
    case CopilotDashboard => "copilot_dashboard"
  }

  /** `_derive_features`: absent is off, and a value that is no boolean is refused. */
  function DeriveFeatures(fields: seq<Field>, all: seq<Feature>): Outcome<Features, Failure> {
    if all == [] then Ok({})
    else match DeriveFeatures(fields, all[..|all| - 1])
      case Err(e) => Err(e)
      case Ok(features) =>
        var f := all[|all| - 1];
        if !HasKey(fields, Name(f)) then Ok(features - {f})
        else match Get(fields, Name(f))
          case Bool(b) => Ok(if b then features + {f} else features - {f})
          case _ => Err(FeatureInvalid(f))
  }

  predicate HasKey(fields: seq<Field>, key: string) {
    exists i :: 0 <= i < |fields| && fields[i].key == key
  }

  datatype Payload = Payload(licenseId: string, licenseType: string, tenantId: string, issuedAt: Time,
                             expiresAt: Option<Time>, features: Features)

  /** `True == 1` in Python, so a schema version of true passes. */
  predicate SchemaVersionOk(v: Json) {
    v == Int(1) || v == Bool(true)
  }

  /** `_parse_payload` */
  function ParsePayload(v: Json, read: Clock): Outcome<Payload, Failure> {
    if !v.Obj? then Err(PayloadInvalid)
    else if !SchemaVersionOk(Get(v.fields, "schema_version")) then Err(SchemaVersionInvalid)
    else match NonEmptyString(Get(v.fields, "license_id"))
      case None => Err(LicenseIdRequired)
      case Some(licenseId) =>
        match NonEmptyString(Get(v.fields, "license_type"))
        case None => Err(LicenseTypeRequired)
        case Some(licenseType) =>
          match NonEmptyString(Get(v.fields, "tenant_id"))
          case None => Err(TenantIdRequired)
          case Some(tenantId) => ParseRest(v, licenseId, licenseType, tenantId, read)
  }

  function ParseRest(v: Json, licenseId: string, licenseType: string, tenantId: string, read: Clock)
    : Outcome<Payload, Failure>
    requires v.Obj?
  {
    match RequiredTimestamp(Get(v.fields, "issued_at"), "license_issued_at", read)
    case Err(e) => Err(e)
    case Ok(issuedAt) =>
      match OptionalTimestamp(Get(v.fields, "expires_at"), "license_expires_at", read)
      case Err(e) => Err(e)
      case Ok(expiresAt) =>
        var features := Get(v.fields, "features");
        if !features.Obj? then Err(FeaturesInvalid)
        else match DeriveFeatures(features.fields, ALL_FEATURES)
          case Err(e) => Err(e)
          case Ok(f) => Ok(Payload(licenseId, licenseType, tenantId, issuedAt, expiresAt, f))
  }
}
