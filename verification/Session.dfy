/**
 Attested sessions and their content-addressed ids (`src/aggregator/session.rs`), and the
 relying party's recomputation of the id from the served record
 (`examples/verify_aci_artifacts.rs`).
 */
module Session {
  import opened Basics
  import opened Json
  import opened Canonical
  import opened Keyset

  datatype ClaimStatus = Asserted | Refuted | Unknown
  datatype ClaimSource = HardwareProven | VerifierDerived | ProviderAsserted | OperatorAsserted
  datatype Claim = Claim(status: ClaimStatus, source: Option<ClaimSource>, reason: Option<string>)
  datatype Claims = Claims(
    teeAttested: Claim, gpuAttested: Claim, tcbUpToDate: Claim, osKnownGood: Claim,
    servingSoftwareKnownGood: Claim, modelWeightsProvenance: Claim, extra: map<string, Value>)
  datatype ChannelBinding =
    | TlsSpki(origin: string, spki: string)
    | TlsCertificate(origin: string, certificate: string)
    | E2eeKey(provider: string, keyId: Option<string>, algorithm: string, publicKey: string)
  datatype IdentityRef = IdentityRef(signingAddress: Option<string>, extra: map<string, Value>)
  datatype Evidence = Evidence(digest: Option<string>, dataUri: Option<string>)
  datatype AttestedSession = AttestedSession(
    apiVersion: string, sessionId: string, upstreamName: string, endpoint: Option<string>, verifierId: string,
    establishedAt: U64, expiresAt: U64, identity: Option<IdentityRef>,
    channelBinding: seq<ChannelBinding>, claims: Claims, evidence: Evidence)

  // ----- serde trees -----

  /** `skip_serializing_if = "Option::is_none"`. */
  function With(m: map<string, Value>, key: string, v: Option<Value>): map<string, Value> {
    if v.Some? then m[key := v.value] else m
  }

  function SomeStr(s: Option<string>): Option<Value> {
    if s.Some? then Some(Str(s.value)) else None
  }

  /** A map that is skipped when empty. */
  function SomeMap(m: map<string, Value>): Option<Value> {
    if m == map[] then None else Some(Obj(m))
  }

  function StatusName(s: ClaimStatus): string {
    match s case Asserted => "asserted" case Refuted => "refuted" case Unknown => "unknown"
  }

  function SourceName(s: ClaimSource): string {
    match s
    case HardwareProven => "hardware_proven"
    case VerifierDerived => "verifier_derived"
    case ProviderAsserted => "provider_asserted"
    case OperatorAsserted => "operator_asserted"
  }

  function ClaimValue(c: Claim): Value {
    Obj(With(With(map["status" := Str(StatusName(c.status))],
                  "source", if c.source.Some? then Some(Str(SourceName(c.source.value))) else None),
             "reason", SomeStr(c.reason)))
  }

  function ClaimsValue(c: Claims): Value {
    Obj(With(map[
      "tee_attested" := ClaimValue(c.teeAttested),
      "gpu_attested" := ClaimValue(c.gpuAttested),
      "tcb_up_to_date" := ClaimValue(c.tcbUpToDate),
      "os_known_good" := ClaimValue(c.osKnownGood),
      "serving_software_known_good" := ClaimValue(c.servingSoftwareKnownGood),
      "model_weights_provenance" := ClaimValue(c.modelWeightsProvenance)
    ], "extra", SomeMap(c.extra)))
  }

  function BindingValue(b: ChannelBinding): Value {
    match b
    case TlsSpki(origin, spki) =>
      Obj(map["type" := Str("tls_spki_sha256"), "origin" := Str(origin), "spki_sha256" := Str(spki)])
    case TlsCertificate(origin, certificate) =>
      Obj(map["type" := Str("tls_certificate_sha256"), "origin" := Str(origin),
          "certificate_sha256" := Str(certificate)])
    case E2eeKey(provider, keyId, algorithm, publicKey) =>
      Obj(With(map["type" := Str("e2ee_public_key_sha256"), "provider" := Str(provider),
                   "algorithm" := Str(algorithm), "public_key_sha256" := Str(publicKey)],
               "key_id", SomeStr(keyId)))
  }

  function BindingList(bs: seq<ChannelBinding>): Value {
    Arr(seq(|bs|, i requires 0 <= i < |bs| => BindingValue(bs[i])))
  }

  function IdentityRefValue(i: IdentityRef): Value {
    Obj(With(With(map[], "signing_address", SomeStr(i.signingAddress)), "extra", SomeMap(i.extra)))
  }

  function SomeIdentity(i: Option<IdentityRef>): Option<Value> {
    if i.Some? then Some(IdentityRefValue(i.value)) else None
  }

  function EvidenceValue(e: Evidence): Value {
    Obj(With(With(map[], "digest", SomeStr(e.digest)), "data", SomeStr(e.dataUri)))
  }

  /** The record as served and logged: absent optionals are left out. */
  function RecordValue(s: AttestedSession): Value {
    Obj(With(With(map[
      "api_version" := Str(s.apiVersion),
      "session_id" := Str(s.sessionId),
      "upstream_name" := Str(s.upstreamName),
      "verifier_id" := Str(s.verifierId),
      "established_at" := Int(s.establishedAt),
      "expires_at" := Int(s.expiresAt),
      "channel_binding" := BindingList(s.channelBinding),
      "claims" := ClaimsValue(s.claims),
      "evidence" := EvidenceValue(s.evidence)
    ], "endpoint", SomeStr(s.endpoint)), "identity", SomeIdentity(s.identity)))
  }

  /** The immutable subset the id commits to: absent optionals are `null`. */
  function ContentMaterial(s: AttestedSession): Value {
    Obj(map[
      "upstream_name" := Str(s.upstreamName),
      "endpoint" := OptStr(s.endpoint),
      "verifier_id" := Str(s.verifierId),
      "identity" := OrNull(SomeIdentity(s.identity)),
      "channel_binding" := BindingList(s.channelBinding),
      "claims" := ClaimsValue(s.claims),
      "evidence_digest" := OptStr(s.evidence.digest)
    ])
  }

  // ----- content ids -----

  /** Lower-case hex of SHA-256. */
  type Hex = seq<Byte> -> string

  /** `digest.strip_prefix("sha256:").unwrap_or(digest)`. */
  function StripScheme(d: string): string {
    if "sha256:" <= d then d[7..] else d
  }

  ghost function MaterialId(hex: Hex, material: Value): Option<string> {
    if IntegerOnly(material) then Some("as_" + StripScheme("sha256:" + hex(Encode(material)))) else None
  }

  /** `content_id`: `None` when a float in the free-form claims has no canonical form. */
  ghost function ContentId(hex: Hex, s: AttestedSession): Option<string> {
    MaterialId(hex, ContentMaterial(s))
  }

  /** `seal`: fill in the id once. */
  ghost function Seal(hex: Hex, s: AttestedSession): Option<AttestedSession> {
    var id := ContentId(hex, s);
    if id.Some? then Some(s.(apiVersion := "aci/1", sessionId := id.value)) else None
  }

  /** `recompute_session_id`: the material a relying party rebuilds from a raw record,
      with the null-restoration rule for the three optional fields. */
  function RebuiltMaterial(record: Value): Option<Value> {
    var upstream, verifier := Get(record, "upstream_name"), Get(record, "verifier_id");
    var binding, claims := Get(record, "channel_binding"), Get(record, "claims");
    if upstream.None? || verifier.None? || binding.None? || claims.None? then None
    else Some(Obj(map[
      "upstream_name" := upstream.value,
      "endpoint" := OrNull(Get(record, "endpoint")),
      "verifier_id" := verifier.value,
      "identity" := OrNull(Get(record, "identity")),
      "channel_binding" := binding.value,
      "claims" := claims.value,
      "evidence_digest" := OrNull(GetIn(Get(record, "evidence"), "digest"))
    ]))
  }

  ghost function RecomputeSessionId(hex: Hex, record: Value): Option<string> {
    var material := RebuiltMaterial(record);
    if material.Some? then MaterialId(hex, material.value) else None
  }

  lemma RecordFields(s: AttestedSession)
    ensures var r := RecordValue(s);
      && Get(r, "upstream_name") == Some(Str(s.upstreamName)) && Get(r, "verifier_id") == Some(Str(s.verifierId))
      && Get(r, "channel_binding") == Some(BindingList(s.channelBinding))
      && Get(r, "claims") == Some(ClaimsValue(s.claims))
      && Get(r, "endpoint") == SomeStr(s.endpoint) && Get(r, "identity") == SomeIdentity(s.identity)
      && Get(r, "evidence") == Some(EvidenceValue(s.evidence))
  {
  }

  /** Null restoration is exact: the relying party rebuilds the gateway's own material. */
  lemma RebuiltFromRecord(s: AttestedSession)
    ensures RebuiltMaterial(RecordValue(s)) == Some(ContentMaterial(s))
  {
    RecordFields(s);
    assert Get(EvidenceValue(s.evidence), "digest") == SomeStr(s.evidence.digest);
  }

  /** The gateway and the relying party compute the same id from the same session, and a
      sealed session still carries it after any change of its timestamps. */
  lemma SealedIdRecomputes(hex: Hex, s: AttestedSession, established: U64, expires: U64)
    ensures RecomputeSessionId(hex, RecordValue(s)) == ContentId(hex, s)
    ensures var t := Seal(hex, s);
      t.Some? ==>
        var later := t.value.(establishedAt := established, expiresAt := expires);
        RecomputeSessionId(hex, RecordValue(later)) == Some(t.value.sessionId)
  {
    RebuiltFromRecord(s);
    var t := Seal(hex, s);
    if t.Some? {
      RebuiltFromRecord(t.value.(establishedAt := established, expiresAt := expires));
    }
  }

  // ----- the id names the verified material -----

  lemma ClaimInjective(a: Claim, b: Claim)
    requires ClaimValue(a) == ClaimValue(b)
    ensures a == b
  {
    ClaimFields(a);
    ClaimFields(b);
  }

  lemma ClaimFields(c: Claim)
    ensures Get(ClaimValue(c), "status") == Some(Str(StatusName(c.status)))
    ensures Get(ClaimValue(c), "status") == Some(Str("asserted")) <==> c.status == Asserted
    ensures Get(ClaimValue(c), "status") == Some(Str("refuted")) <==> c.status == Refuted
    ensures Get(ClaimValue(c), "source") == if c.source.Some? then Some(Str(SourceName(c.source.value))) else None
    ensures Get(ClaimValue(c), "reason") == SomeStr(c.reason)
  {
  }

  lemma ClaimsFields(c: Claims)
    ensures var v := ClaimsValue(c);
      && Get(v, "tee_attested") == Some(ClaimValue(c.teeAttested))
      && Get(v, "gpu_attested") == Some(ClaimValue(c.gpuAttested))
      && Get(v, "tcb_up_to_date") == Some(ClaimValue(c.tcbUpToDate))
      && Get(v, "os_known_good") == Some(ClaimValue(c.osKnownGood))
      && Get(v, "serving_software_known_good") == Some(ClaimValue(c.servingSoftwareKnownGood))
      && Get(v, "model_weights_provenance") == Some(ClaimValue(c.modelWeightsProvenance))
      && Get(v, "extra") == SomeMap(c.extra)
  {
  }

  lemma ClaimsInjective(a: Claims, b: Claims)
    requires ClaimsValue(a) == ClaimsValue(b)
    ensures a == b
  {
    ClaimsFields(a);
    ClaimsFields(b);
    ClaimInjective(a.teeAttested, b.teeAttested);
    ClaimInjective(a.gpuAttested, b.gpuAttested);
    ClaimInjective(a.tcbUpToDate, b.tcbUpToDate);
    ClaimInjective(a.osKnownGood, b.osKnownGood);
    ClaimInjective(a.servingSoftwareKnownGood, b.servingSoftwareKnownGood);
    ClaimInjective(a.modelWeightsProvenance, b.modelWeightsProvenance);
  }

  lemma BindingFields(b: ChannelBinding)
    ensures var v := BindingValue(b);
      match b
      case TlsSpki(o, s) => AsStr(Get(v, "type")) == Some("tls_spki_sha256") && Get(v, "origin") == Some(Str(o))
          && Get(v, "spki_sha256") == Some(Str(s))
      case TlsCertificate(o, c) => AsStr(Get(v, "type")) == Some("tls_certificate_sha256")
          && Get(v, "origin") == Some(Str(o)) && Get(v, "certificate_sha256") == Some(Str(c))
      case E2eeKey(p, k, g, q) =>
        && AsStr(Get(v, "type")) == Some("e2ee_public_key_sha256") && Get(v, "provider") == Some(Str(p))
        && Get(v, "key_id") == SomeStr(k) && Get(v, "algorithm") == Some(Str(g))
        && Get(v, "public_key_sha256") == Some(Str(q))
  {
  }

  lemma BindingListInjective(a: seq<ChannelBinding>, b: seq<ChannelBinding>)
    requires BindingList(a) == BindingList(b)
    ensures a == b
  {
    var x, y := BindingList(a).items, BindingList(b).items;
    assert |x| == |a| && |y| == |b|;
    forall i | 0 <= i < |a| ensures a[i] == b[i] {
      assert x[i] == BindingValue(a[i]) && y[i] == BindingValue(b[i]);
      BindingFields(a[i]);
      BindingFields(b[i]);
    }
  }

  lemma IdentityRefFields(i: IdentityRef)
    ensures Get(IdentityRefValue(i), "signing_address") == SomeStr(i.signingAddress)
    ensures Get(IdentityRefValue(i), "extra") == SomeMap(i.extra)
  {
  }

  lemma IdentityRefInjective(a: Option<IdentityRef>, b: Option<IdentityRef>)
    requires OrNull(SomeIdentity(a)) == OrNull(SomeIdentity(b))
    ensures a == b
  {
    if a.Some? { IdentityRefFields(a.value); }
    if b.Some? { IdentityRefFields(b.value); }
  }

  lemma MaterialFields(s: AttestedSession)
    ensures var v := ContentMaterial(s);
      && Get(v, "upstream_name") == Some(Str(s.upstreamName)) && Get(v, "endpoint") == Some(OptStr(s.endpoint))
      && Get(v, "verifier_id") == Some(Str(s.verifierId))
      && Get(v, "identity") == Some(OrNull(SomeIdentity(s.identity)))
      && Get(v, "channel_binding") == Some(BindingList(s.channelBinding))
      && Get(v, "claims") == Some(ClaimsValue(s.claims)) && Get(v, "evidence_digest") == Some(OptStr(s.evidence.digest))
  {
  }

  /** The verified material: everything but the id, the timestamps and the evidence bytes. */
  ghost predicate SameMaterial(a: AttestedSession, b: AttestedSession) {
    && a.upstreamName == b.upstreamName && a.endpoint == b.endpoint && a.verifierId == b.verifierId
    && a.identity == b.identity && a.channelBinding == b.channelBinding && a.claims == b.claims
    && a.evidence.digest == b.evidence.digest
  }

  lemma MaterialInjective(a: AttestedSession, b: AttestedSession)
    ensures ContentMaterial(a) == ContentMaterial(b) <==> SameMaterial(a, b)
  {
    if ContentMaterial(a) == ContentMaterial(b) {
      MaterialFields(a);
      MaterialFields(b);
      IdentityRefInjective(a.identity, b.identity);
      BindingListInjective(a.channelBinding, b.channelBinding);
      ClaimsInjective(a.claims, b.claims);
    }
  }

  /** Identical verifications share one id; any change of the verified material moves it. */
  lemma ContentIdNamesMaterial(hex: Hex, a: AttestedSession, b: AttestedSession)
    requires IntegerOnly(ContentMaterial(a)) && IntegerOnly(ContentMaterial(b))
    requires hex(Encode(ContentMaterial(a))) == hex(Encode(ContentMaterial(b))) ==>
        Encode(ContentMaterial(a)) == Encode(ContentMaterial(b))
    ensures ContentId(hex, a) == ContentId(hex, b) <==> SameMaterial(a, b)
  {
    var x, y := hex(Encode(ContentMaterial(a))), hex(Encode(ContentMaterial(b)));
    assert StripScheme("sha256:" + x) == x && StripScheme("sha256:" + y) == y;
    assert ("as_" + x)[3..] == x && ("as_" + y)[3..] == y;
    EncodeInjective(ContentMaterial(a), ContentMaterial(b));
    MaterialInjective(a, b);
  }

  // ----- evidence -----

  /** `split_once(";base64,")`: what follows the first separator. */
  function AfterFirst(s: string, sep: string): Option<string> {
    if sep <= s then Some(s[|sep|..]) else if s == [] then None else AfterFirst(s[1..], sep)
  }

  lemma {:induction false} FirstSeparator(head: string, sep: string, tail: string)
    requires forall i :: 0 <= i < |head| ==> !(sep <= (head + sep + tail)[i..])
    ensures AfterFirst(head + sep + tail, sep) == Some(tail)
  {
    var s := head + sep + tail;
    assert s[0..] == s;
    if head == "" {
      assert s[..|sep|] == sep && s[|sep|..] == tail;
    } else {
      var rest := head[1..] + sep + tail;
      assert s[1..] == rest;
      assert forall i :: 0 <= i < |head| - 1 ==> rest[i..] == s[i + 1..];
      FirstSeparator(head[1..], sep, tail);
    }
  }

  /** `digest_matches_data`: nothing to check, or the decoded bytes hash to the digest. */
  predicate DigestMatchesData(hex: Hex, base64: string -> Option<seq<Byte>>, e: Evidence) {
    e.digest.Some? && e.dataUri.Some? ==>
      var b64 := AfterFirst(e.dataUri.value, ";base64,");
      b64.Some? ==> base64(b64.value).Some? && "sha256:" + hex(base64(b64.value).value) == e.digest.value
  }

  /** What the store accepts on replay: an id that matches the contents, evidence that
      matches its digest. */
  ghost predicate Acceptable(hex: Hex, base64: string -> Option<seq<Byte>>, s: AttestedSession) {
    ContentId(hex, s) == Some(s.sessionId) && DigestMatchesData(hex, base64, s.evidence)
  }

  /** Whatever is accepted carries the id of its own material, and evidence whose payload is
      what its digest says. */
  lemma AcceptedIsGenuine(hex: Hex, base64: string -> Option<seq<Byte>>, s: AttestedSession, head: string,
      payload: string)
    requires Acceptable(hex, base64, s)
    ensures Genuine(hex, base64, s, head, payload)
  {
    var x := hex(Encode(ContentMaterial(s)));
    assert ("sha256:" + x)[7..] == x;
    if Carries(s.evidence, head, payload) { FirstSeparator(head, ";base64,", payload); }
  }

  /** The data URI carries this payload, after its first `;base64,`. */
  predicate Carries(e: Evidence, head: string, payload: string) {
    var uri := head + ";base64," + payload;
    e.dataUri == Some(uri) && forall i :: 0 <= i < |head| ==> !(";base64," <= uri[i..])
  }

  ghost predicate Genuine(hex: Hex, base64: string -> Option<seq<Byte>>, s: AttestedSession, head: string,
      payload: string) {
    && IntegerOnly(ContentMaterial(s)) && s.sessionId == "as_" + hex(Encode(ContentMaterial(s)))
    && (s.evidence.digest.Some? && Carries(s.evidence, head, payload) ==>
          base64(payload).Some? && s.evidence.digest == Some("sha256:" + hex(base64(payload).value)))
  }

  /** Sealing produces what replay accepts, and later changes of the deadline keep it so. */
  lemma SealedIsAcceptable(hex: Hex, base64: string -> Option<seq<Byte>>, s: AttestedSession, expires: U64)
    requires DigestMatchesData(hex, base64, s.evidence)
    ensures var t := Seal(hex, s); t.Some? ==> Acceptable(hex, base64, t.value.(expiresAt := expires))
    ensures Acceptable(hex, base64, s) <==> Acceptable(hex, base64, s.(expiresAt := expires))
  {
    var t := Seal(hex, s);
    assert ContentMaterial(s.(expiresAt := expires)) == ContentMaterial(s);
    if t.Some? { assert ContentMaterial(t.value.(expiresAt := expires)) == ContentMaterial(s); }
  }
}
