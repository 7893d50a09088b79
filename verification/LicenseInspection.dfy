/** Which artifacts the licence check of worker/app/license.py accepts, and what an accepted one allows. */
module LicenseInspection {
  import opened Options
  import opened CanonicalJson
  import opened CanonicalForm
  import opened LicenseArtifact

  /** What the deployment fixes: its tenant, how timestamps are read, and whether a signature of a text verifies under
      the public key (false too when the key or the signature cannot be decoded). */
  datatype Trust = Trust(tenant: Option<string>, read: Clock, verifies: (string, string) -> bool)

  /** `inspect_license_artifact` */
  function Inspect(raw: string, trust: Trust): Outcome<Payload, Failure> {
    match Split(NormalizeNewlines(raw))
    case Err(e) => Err(e)
    case Ok(parts) =>
      match Loads(parts.payload)
      case None => Err(NotJson)
      case Some(v) =>
        match ParsePayload(v, trust.read)
        case Err(e) => Err(e)
        case Ok(payload) =>
          if parts.payload != Canonicalize(v) then Err(NotCanonical)
          else if !trust.verifies(Canonicalize(v), parts.signature) then Err(SignatureMismatch)
          else Ok(payload)
  }

  // ------------------------------------------------------------------------------- lookups ignore the order of keys

  lemma {:induction false} GetIs(fields: seq<Field>, i: nat)
    requires KeysDiffer(fields) && i < |fields|
    ensures Get(fields, fields[i].key) == fields[i].value
  {
    if i > 0 {
      GetIs(fields[1..], i - 1);
    }
  }

  lemma {:induction false} GetAbsent(fields: seq<Field>, key: string)
    requires !HasKey(fields, key)
    ensures Get(fields, key) == Null
  {
    if fields != [] {
      forall i | 0 <= i < |fields[1..]| ensures fields[1..][i].key != key {
        assert fields[i + 1].key != key;
      }
      GetAbsent(fields[1..], key);
    }
  }

  lemma GetSorted(fields: seq<Field>, key: string)
    requires WellFormed(Obj(fields))
    ensures var sorted := SortFields(SortValues(fields));
            HasKey(sorted, key) == HasKey(fields, key) && Get(sorted, key) == SortJson(Get(fields, key))
  {
    var mapped := SortValues(fields);
    var sorted := SortFields(mapped);
    SortHolds(mapped);
    KeysDifferIffDistinct(fields);
    SortSorts(mapped);
    SortedDiffer(sorted);
    if HasKey(fields, key) {
      var i :| 0 <= i < |fields| && fields[i].key == key;
      assert mapped[i] in sorted;
      var j :| 0 <= j < |sorted| && sorted[j] == mapped[i];
      GetIs(fields, i);
      GetIs(sorted, j);
    } else {
      forall j | 0 <= j < |sorted| ensures sorted[j].key != key {
        assert sorted[j] in mapped;
      }
      GetAbsent(fields, key);
      GetAbsent(sorted, key);
    }
  }

  lemma {:induction false} DeriveSorted(fields: seq<Field>, all: seq<Feature>)
    requires WellFormed(Obj(fields))
    ensures DeriveFeatures(SortFields(SortValues(fields)), all) == DeriveFeatures(fields, all)
  {
    if all != [] {
      DeriveSorted(fields, all[..|all| - 1]);
      GetSorted(fields, Name(all[|all| - 1]));
    }
  }

  lemma {:induction false} GetWellFormed(fields: seq<Field>, key: string)
    requires forall i :: 0 <= i < |fields| ==> WellFormed(fields[i].value)
    ensures WellFormed(Get(fields, key))
  {
    if fields != [] && fields[0].key != key {
      GetWellFormed(fields[1..], key);
    }
  }

  lemma ParseRestSorted(v: Json, licenseId: string, licenseType: string, tenantId: string, read: Clock)
    requires WellFormed(v) && v.Obj?
    ensures ParseRest(SortJson(v), licenseId, licenseType, tenantId, read)
            == ParseRest(v, licenseId, licenseType, tenantId, read)
  {
    GetSorted(v.fields, "issued_at");
    GetSorted(v.fields, "expires_at");
    GetSorted(v.fields, "features");
    GetWellFormed(v.fields, "features");
    var features := Get(v.fields, "features");
    if features.Obj? {
      DeriveSorted(features.fields, ALL_FEATURES);
    }
  }

  lemma ParseSorted(v: Json, read: Clock)
    requires WellFormed(v)
    ensures ParsePayload(SortJson(v), read) == ParsePayload(v, read)
  {
    if v.Obj? {
      GetSorted(v.fields, "schema_version");
      GetSorted(v.fields, "license_id");
      GetSorted(v.fields, "license_type");
      GetSorted(v.fields, "tenant_id");
      forall licenseId, licenseType, tenantId
        ensures ParseRest(SortJson(v), licenseId, licenseType, tenantId, read)
                == ParseRest(v, licenseId, licenseType, tenantId, read)
      {
        ParseRestSorted(v, licenseId, licenseType, tenantId, read);
      }
    }
  }

  // ------------------------------------------------------------------------------- which artifacts are accepted

  /** `raw` is the canonical text of `v`, the delimiter, and a signature that verifies for that text. */
  ghost predicate Signed(raw: string, trust: Trust, v: Json, signature: string, before: string, after: string) {
    && WellFormed(v) && trust.verifies(Canonicalize(v), signature)
    && Composed(NormalizeNewlines(raw), Parts(Canonicalize(v), signature), before, after)
  }

  lemma SignedIsAccepted(raw: string, trust: Trust, v: Json, signature: string, before: string, after: string)
    requires Signed(raw, trust, v, signature, before, after)
    ensures Inspect(raw, trust) == ParsePayload(v, trust.read)
  {
    SplitIffComposed(NormalizeNewlines(raw), Parts(Canonicalize(v), signature));
    CanonicalRoundTrip(v);
    ParseSorted(v, trust.read);
  }

  lemma AcceptedIsSigned(raw: string, trust: Trust) returns (v: Json, signature: string, before: string, after: string)
    requires Inspect(raw, trust).Ok?
    ensures Signed(raw, trust, v, signature, before, after) && Inspect(raw, trust) == ParsePayload(v, trust.read)
  {
    var text := NormalizeNewlines(raw);
    var parts := Split(text).value;
    v, signature := Loads(parts.payload).value, parts.signature;
    SplitIffComposed(text, parts);
    before, after :| Composed(text, parts, before, after);
    ReadIsWellFormed(parts.payload);
  }

  /** The check accepts an artifact with payload `p` exactly when it is a signed canonical text of a value with that
      payload. */
  lemma AcceptedIffSigned(raw: string, trust: Trust, p: Payload)
    ensures Inspect(raw, trust) == Ok(p)
            <==> exists v, signature, before, after ::
                   Signed(raw, trust, v, signature, before, after) && ParsePayload(v, trust.read) == Ok(p)
  {
    if Inspect(raw, trust) == Ok(p) {
      var v, signature, before, after := AcceptedIsSigned(raw, trust);
    }
    forall v, signature, before, after
      | Signed(raw, trust, v, signature, before, after) && ParsePayload(v, trust.read) == Ok(p)
      ensures Inspect(raw, trust) == Ok(p)
    {
      SignedIsAccepted(raw, trust, v, signature, before, after);
    }
  }

  /** What an issuer writes, with either kind of line end, is accepted if its signature verifies. */
  lemma IssuedIsAccepted(v: Json, signature: string, delimiter: string, after: string, trust: Trust)
    requires WellFormed(v) && trust.verifies(Canonicalize(v), signature)
    requires signature != "" && NoSpace(signature) && signature != MARK && AllSpace(after)
    requires delimiter == DELIMITER || delimiter == DELIMITER_CRLF
    ensures Inspect(Canonicalize(v) + (delimiter + (signature + after)), trust) == ParsePayload(v, trust.read)
  {
    PrintHasNoControls(SortJson(v));
    ArtifactSplits(Parts(Canonicalize(v), signature), delimiter, "", after);
    assert "" + (signature + after) == signature + after;
    CanonicalRoundTrip(v);
    ParseSorted(v, trust.read);
  }

  // ------------------------------------------------------------------------------- what an artifact allows

  datatype Status = Active | ExpiredStatus | Invalid | Missing
  datatype Summary = Summary(status: Status, error: Option<Failure>, payload: Option<Payload>, features: Features)

  /** `_fallback_summary` */
  function Fallback(error: Failure, payload: Option<Payload>): Summary {
    Summary(Invalid, Some(error), payload, DefaultFeatures())
  }

  function MissingSummary(): Summary {
    Summary(Missing, Some(LicenseMissing), None, DefaultFeatures())
  }

  predicate ExpiredAt(p: Payload, now: Time) {
    p.expiresAt.Some? && p.expiresAt.value < now
  }

  /** `summarize_license_artifact` */
  function Summarize(raw: string, trust: Trust, now: Time): Summary {
    match Inspect(raw, trust)
    case Err(e) => Fallback(e, None)
    case Ok(p) =>
      if trust.tenant.None? then Fallback(TenantNotConfigured, Some(p))
      else if p.tenantId != trust.tenant.value then Fallback(TenantMismatch, Some(p))
      else if ExpiredAt(p, now) then Summary(ExpiredStatus, Some(Expired), Some(p), DefaultFeatures())
      else Summary(Active, None, Some(p), p.features)
  }

  /** `require_license_feature` passes. */
  predicate Allows(s: Summary, feature: Feature) {
    feature in s.features
  }

  lemma OneFeature(fields: seq<Field>, features: Features, all: seq<Feature>, last: Feature)
    requires DeriveFeatures(fields, all) == Ok(features)
    requires DeriveFeatures(fields, all + [last]).Ok?
    ensures DeriveFeatures(fields, all + [last])
            == Ok(if Get(fields, Name(last)) == Bool(true) then features + {last} else features - {last})
  {
    assert (all + [last])[..|all|] == all;
    if !HasKey(fields, Name(last)) {
      GetAbsent(fields, Name(last));
    }
  }

  /** A feature is on exactly when the payload maps its name to true. */
  lemma {:induction false} DerivedFeatures(fields: seq<Field>, all: seq<Feature>, features: Features)
    requires DeriveFeatures(fields, all) == Ok(features)
    ensures forall f :: f in features <==> f in all && Get(fields, Name(f)) == Bool(true)
  {
    if all != [] {
      var before, last := all[..|all| - 1], all[|all| - 1];
      assert all == before + [last];
      var features' := DeriveFeatures(fields, before).value;
      DerivedFeatures(fields, before, features');
      OneFeature(fields, features', before, last);
    }
  }

  lemma AllFeatures(f: Feature)
    ensures f in ALL_FEATURES
  {
    var i := match f
      case DashboardRead => 0
      case LiveGraphRead => 1
      case AdminView => 2
      case LicenseManage => 3
      case PermissionRevoke => 4
      case JobControl => 5
      case GraphIngest => 6
      case CopilotTelemetry => 7
      case AgentsDashboard => 8
      case CopilotUsageSync => 9
      case CopilotDashboard => 10;
    assert ALL_FEATURES[i] == f;
  }

  /** The payload grants `feature` outright. */
  ghost predicate Grants(v: Json, feature: Feature) {
    v.Obj? && Get(v.fields, "features").Obj? && Get(Get(v.fields, "features").fields, Name(feature)) == Bool(true)
  }

  // ------------------------------------------------------------------------------- in terms of the JSON value

  /** A string that is not blank. */
  predicate Textual(v: Json) {
    v.Str? && Strip(v.s) != ""
  }

  /** A string that reads as a timestamp. */
  predicate Timestamp(v: Json, read: Clock) {
    Textual(v) && read(Strip(v.s)).Some?
  }

  predicate TypedFeatures(v: Json) {
    v.Obj? && forall f :: HasKey(v.fields, Name(f)) ==> Get(v.fields, Name(f)).Bool?
  }

  /** What a payload has to be. */
  predicate Acceptable(v: Json, read: Clock) {
    && v.Obj? && (Get(v.fields, "schema_version") == Int(1) || Get(v.fields, "schema_version") == Bool(true))
    && Textual(Get(v.fields, "license_id")) && Textual(Get(v.fields, "license_type"))
    && Textual(Get(v.fields, "tenant_id")) && Timestamp(Get(v.fields, "issued_at"), read)
    && (Get(v.fields, "expires_at").Null? || Timestamp(Get(v.fields, "expires_at"), read))
    && TypedFeatures(Get(v.fields, "features"))
  }

  /** The instant a timestamp stands for, to the millisecond. */
  function Instant(v: Json, read: Clock): Time
    requires Timestamp(v, read)
  {
    read(Strip(v.s)).value / 1000 * 1000
  }

  predicate ForTenant(v: Json, tenant: Option<string>) {
    v.Obj? && Textual(Get(v.fields, "tenant_id")) && tenant == Some(Strip(Get(v.fields, "tenant_id").s))
  }

  /** No expiry, or one that is not before `now`. */
  predicate InTime(v: Json, read: Clock, now: Time)
    requires Acceptable(v, read)
  {
    Get(v.fields, "expires_at").Null? || now <= Instant(Get(v.fields, "expires_at"), read)
  }

  lemma {:induction false} DerivesIffTyped(fields: seq<Field>, all: seq<Feature>)
    ensures DeriveFeatures(fields, all).Ok?
            <==> forall f :: f in all && HasKey(fields, Name(f)) ==> Get(fields, Name(f)).Bool?
  {
    if all != [] {
      var before, last := all[..|all| - 1], all[|all| - 1];
      assert all == before + [last];
      DerivesIffTyped(fields, before);
    }
  }

  /** Parsing accepts exactly the acceptable payloads, and returns what they say. */
  lemma ParsesIffAcceptable(v: Json, read: Clock)
    ensures ParsePayload(v, read).Ok? <==> Acceptable(v, read)
    ensures Acceptable(v, read) ==>
              var p := ParsePayload(v, read).value;
              && p.licenseId == Strip(Get(v.fields, "license_id").s)
              && p.licenseType == Strip(Get(v.fields, "license_type").s)
              && p.tenantId == Strip(Get(v.fields, "tenant_id").s)
              && p.issuedAt == Instant(Get(v.fields, "issued_at"), read)
              && p.expiresAt == (if Get(v.fields, "expires_at").Null? then None
                                 else Some(Instant(Get(v.fields, "expires_at"), read)))
              && forall f :: f in p.features <==> Grants(v, f)
  {
    if v.Obj? && Get(v.fields, "features").Obj? {
      var features := Get(v.fields, "features").fields;
      DerivesIffTyped(features, ALL_FEATURES);
      forall f ensures f in ALL_FEATURES { AllFeatures(f); }
      if DeriveFeatures(features, ALL_FEATURES).Ok? {
        DerivedFeatures(features, ALL_FEATURES, DeriveFeatures(features, ALL_FEATURES).value);
      }
    }
  }

  // ------------------------------------------------------------------------------- what is allowed

  /** `raw` is a signed canonical payload for this tenant. */
  ghost predicate LicensedTo(raw: string, trust: Trust, v: Json, signature: string, before: string, after: string) {
    Signed(raw, trust, v, signature, before, after) && Acceptable(v, trust.read) && ForTenant(v, trust.tenant)
  }

  /** And it has not expired. */
  ghost predicate Licenses(raw: string, trust: Trust, now: Time, v: Json, signature: string, before: string,
                           after: string)
  {
    LicensedTo(raw, trust, v, signature, before, after) && InTime(v, trust.read, now)
  }

  ghost predicate Licensed(raw: string, trust: Trust, now: Time) {
    exists v, signature, before, after :: Licenses(raw, trust, now, v, signature, before, after)
  }

  /** And it grants the feature. */
  ghost predicate Entitled(raw: string, trust: Trust, now: Time, feature: Feature) {
    exists v, signature, before, after ::
      Licenses(raw, trust, now, v, signature, before, after) && Grants(v, feature)
  }

  /** Whatever value is found to be signed decides the summary. */
  lemma SummaryBySigned(raw: string, trust: Trust, now: Time, v: Json, signature: string, before: string, after: string)
    requires Signed(raw, trust, v, signature, before, after)
    ensures
      var s := Summarize(raw, trust, now);
      && !s.status.Missing?
      && (s.status.Active? <==> Licenses(raw, trust, now, v, signature, before, after))
      && (s.status.ExpiredStatus?
          <==> LicensedTo(raw, trust, v, signature, before, after) && !InTime(v, trust.read, now))
      && forall f :: Allows(s, f) <==> if s.status.Active? then Grants(v, f) else !NeedsLicense(f)
  {
    SignedIsAccepted(raw, trust, v, signature, before, after);
    ParsesIffAcceptable(v, trust.read);
  }

  /** And what the summary shows: the payload of whatever is signed and acceptable, and the first thing that is wrong.
      */
  lemma SummaryShows(raw: string, trust: Trust, now: Time, v: Json, signature: string, before: string, after: string)
    requires Signed(raw, trust, v, signature, before, after)
    ensures
      var s := Summarize(raw, trust, now);
      if Acceptable(v, trust.read) then
        && s.payload.Some? && ParsePayload(v, trust.read) == Ok(s.payload.value)
        && s.error == (if trust.tenant.None? then Some(TenantNotConfigured)
                       else if !ForTenant(v, trust.tenant) then Some(TenantMismatch)
                       else if !InTime(v, trust.read, now) then Some(Expired) else None)
      else s.payload.None? && s.error.Some?
  {
    SignedIsAccepted(raw, trust, v, signature, before, after);
    ParsesIffAcceptable(v, trust.read);
  }

  /** Whatever is not signed shows nothing but an error. */
  lemma UnsignedShows(raw: string, trust: Trust, now: Time)
    requires forall v, signature, before, after :: !Signed(raw, trust, v, signature, before, after)
    ensures Summarize(raw, trust, now).payload.None? && Summarize(raw, trust, now).error.Some?
  {
    if Inspect(raw, trust).Ok? {
      var v, signature, before, after := AcceptedIsSigned(raw, trust);
    }
  }

  lemma SummaryOfUnsigned(raw: string, trust: Trust, now: Time)
    requires !Inspect(raw, trust).Ok?
    ensures Summarize(raw, trust, now).status.Invalid?
    ensures forall f :: Allows(Summarize(raw, trust, now), f) <==> !NeedsLicense(f)
    ensures forall v, signature, before, after :: !LicensedTo(raw, trust, v, signature, before, after)
  {
    forall v, signature, before, after | LicensedTo(raw, trust, v, signature, before, after) ensures false {
      SignedIsAccepted(raw, trust, v, signature, before, after);
      ParsesIffAcceptable(v, trust.read);
    }
  }

  /** A stored artifact is active exactly when it is a signed canonical payload for this tenant that has not expired,
      expired exactly when it is one that has, and invalid otherwise. */
  lemma ActiveIffLicensed(raw: string, trust: Trust, now: Time)
    ensures
      var status := Summarize(raw, trust, now).status;
      && (status.Active? <==> Licensed(raw, trust, now))
      && (status.ExpiredStatus? <==> exists v, signature, before, after ::
            LicensedTo(raw, trust, v, signature, before, after) && !InTime(v, trust.read, now))
      && !status.Missing?
  {
    if Inspect(raw, trust).Ok? {
      var v, signature, before, after := AcceptedIsSigned(raw, trust);
      SummaryBySigned(raw, trust, now, v, signature, before, after);
      forall v', signature', before', after' | Signed(raw, trust, v', signature', before', after')
        ensures Licenses(raw, trust, now, v', signature', before', after')
                <==> Licenses(raw, trust, now, v, signature, before, after)
        ensures LicensedTo(raw, trust, v', signature', before', after') && !InTime(v', trust.read, now)
                <==> LicensedTo(raw, trust, v, signature, before, after) && !InTime(v, trust.read, now)
      {
        SummaryBySigned(raw, trust, now, v', signature', before', after');
      }
    } else {
      SummaryOfUnsigned(raw, trust, now);
    }
  }

  /** A feature that needs a licence is allowed exactly when the artifact is a signed canonical payload that grants it,
      for this tenant, and has not expired. Any other feature is refused only by such a payload that does not grant it.
      */
  lemma AllowedIffEntitled(raw: string, trust: Trust, now: Time, feature: Feature)
    ensures Allows(Summarize(raw, trust, now), feature)
            <==> Entitled(raw, trust, now, feature) || (!NeedsLicense(feature) && !Licensed(raw, trust, now))
  {
    ActiveIffLicensed(raw, trust, now);
    if Inspect(raw, trust).Ok? {
      var v, signature, before, after := AcceptedIsSigned(raw, trust);
      SummaryBySigned(raw, trust, now, v, signature, before, after);
      forall v', signature', before', after' | Licenses(raw, trust, now, v', signature', before', after')
        ensures Allows(Summarize(raw, trust, now), feature) <==> Grants(v', feature)
      {
        SummaryBySigned(raw, trust, now, v', signature', before', after');
      }
    } else {
      SummaryOfUnsigned(raw, trust, now);
    }
  }
}
