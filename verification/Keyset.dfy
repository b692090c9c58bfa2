/**
 Workload identity, keyset and the digests over them (`src/aci/types.rs`,
 `src/aci/identity.rs`).  SHA-256 is a function argument; each claim assumes only that
 it does not collide on the two byte strings compared.
 */
module Keyset {
  import opened Basics
  import opened Json
  import opened Canonical

  type U64 = n: int | 0 <= n <= U64_MAX

  /** `"sha256:" || hex(sha256(bytes))`. */
  type Hash = seq<Byte> -> string

  ghost predicate NoCollision(hash: Hash, x: seq<Byte>, y: seq<Byte>) {
    hash(x) == hash(y) ==> x == y
  }

  datatype PublicKeyMaterial = PublicKeyMaterial(algo: string, publicKey: string)
  datatype KeyedPublicKey = KeyedPublicKey(keyId: string, algo: string, publicKey: string)
  datatype TlsSpki = TlsSpki(domain: Option<string>, spkiSha256: string)
  datatype WorkloadIdentity = WorkloadIdentity(publicKey: PublicKeyMaterial, subject: Option<string>)
  datatype KeysetEpoch = KeysetEpoch(version: U64, notAfter: U64)
  datatype WorkloadKeyset = WorkloadKeyset(
    identity: WorkloadIdentity,
    epoch: KeysetEpoch,
    receiptSigningKeys: seq<KeyedPublicKey>,
    e2eePublicKeys: seq<KeyedPublicKey>,
    tlsPublicKeys: seq<TlsSpki>)

  // ----- canonical projections -----

  function PublicKeyValue(k: PublicKeyMaterial): (v: Value)
    ensures IntegerOnly(v)
  {
    Obj(map["algo" := Str(k.algo), "public_key" := Str(k.publicKey)])
  }

  function KeyedValue(k: KeyedPublicKey): (v: Value)
    ensures IntegerOnly(v)
  {
    Obj(map["key_id" := Str(k.keyId), "algo" := Str(k.algo), "public_key" := Str(k.publicKey)])
  }

  function TlsValue(k: TlsSpki): (v: Value)
    ensures IntegerOnly(v)
  {
    var base := map["spki_sha256" := Str(k.spkiSha256)];
    Obj(if k.domain.Some? then base["domain" := Str(k.domain.value)] else base)
  }

  function IdentityValue(i: WorkloadIdentity): (v: Value)
    ensures IntegerOnly(v)
  {
    Obj(map["public_key" := PublicKeyValue(i.publicKey), "subject" := OptStr(i.subject)])
  }

  function EpochValue(e: KeysetEpoch): (v: Value)
    ensures IntegerOnly(v)
  {
    Obj(map["version" := Int(e.version), "not_after" := Int(e.notAfter)])
  }

  function KeyedList(ks: seq<KeyedPublicKey>): (v: Value)
    ensures IntegerOnly(v)
  {
    Arr(seq(|ks|, i requires 0 <= i < |ks| => KeyedValue(ks[i])))
  }

  function TlsList(ks: seq<TlsSpki>): (v: Value)
    ensures IntegerOnly(v)
  {
    Arr(seq(|ks|, i requires 0 <= i < |ks| => TlsValue(ks[i])))
  }

  function KeysetValue(k: WorkloadKeyset): (v: Value)
    ensures IntegerOnly(v) && v.Obj?
  {
    Obj(map[
      "workload_identity" := IdentityValue(k.identity),
      "keyset_epoch" := EpochValue(k.epoch),
      "receipt_signing_keys" := KeyedList(k.receiptSigningKeys),
      "e2ee_public_keys" := KeyedList(k.e2eePublicKeys),
      "tls_public_keys" := TlsList(k.tlsPublicKeys)
    ])
  }

  /** The keyset tree with the rotating epoch taken out. */
  function MaterialValue(k: WorkloadKeyset): (v: Value)
    ensures IntegerOnly(v)
  {
    Obj(KeysetValue(k).fields - {"keyset_epoch"})
  }

  // ----- the projections lose nothing -----

  lemma PublicKeyInjective(a: PublicKeyMaterial, b: PublicKeyMaterial)
    requires PublicKeyValue(a) == PublicKeyValue(b)
    ensures a == b
  {
    var m, n := PublicKeyValue(a).fields, PublicKeyValue(b).fields;
    assert m["algo"] == n["algo"] && m["public_key"] == n["public_key"];
  }

  lemma IdentityInjective(a: WorkloadIdentity, b: WorkloadIdentity)
    requires IdentityValue(a) == IdentityValue(b)
    ensures a == b
  {
    var m, n := IdentityValue(a).fields, IdentityValue(b).fields;
    assert m["public_key"] == n["public_key"] && m["subject"] == n["subject"];
    PublicKeyInjective(a.publicKey, b.publicKey);
  }

  lemma EpochInjective(a: KeysetEpoch, b: KeysetEpoch)
    requires EpochValue(a) == EpochValue(b)
    ensures a == b
  {
    var m, n := EpochValue(a).fields, EpochValue(b).fields;
    assert m["version"] == n["version"] && m["not_after"] == n["not_after"];
  }

  lemma KeyedInjective(a: KeyedPublicKey, b: KeyedPublicKey)
    requires KeyedValue(a) == KeyedValue(b)
    ensures a == b
  {
    var m, n := KeyedValue(a).fields, KeyedValue(b).fields;
    assert m["key_id"] == n["key_id"] && m["algo"] == n["algo"] && m["public_key"] == n["public_key"];
  }

  lemma TlsInjective(a: TlsSpki, b: TlsSpki)
    requires TlsValue(a) == TlsValue(b)
    ensures a == b
  {
    var m, n := TlsValue(a).fields, TlsValue(b).fields;
    assert m["spki_sha256"] == n["spki_sha256"];
    assert "domain" in m <==> a.domain.Some?;
    assert "domain" in n <==> b.domain.Some?;
    if a.domain.Some? { assert m["domain"] == n["domain"]; }
  }

  lemma KeyedListInjective(a: seq<KeyedPublicKey>, b: seq<KeyedPublicKey>)
    requires KeyedList(a) == KeyedList(b)
    ensures a == b
  {
    var x, y := KeyedList(a).items, KeyedList(b).items;
    assert |x| == |a| && |y| == |b|;
    forall i | 0 <= i < |a| ensures a[i] == b[i] {
      assert x[i] == KeyedValue(a[i]) && y[i] == KeyedValue(b[i]);
      KeyedInjective(a[i], b[i]);
    }
  }

  lemma TlsListInjective(a: seq<TlsSpki>, b: seq<TlsSpki>)
    requires TlsList(a) == TlsList(b)
    ensures a == b
  {
    var x, y := TlsList(a).items, TlsList(b).items;
    assert |x| == |a| && |y| == |b|;
    forall i | 0 <= i < |a| ensures a[i] == b[i] {
      assert x[i] == TlsValue(a[i]) && y[i] == TlsValue(b[i]);
      TlsInjective(a[i], b[i]);
    }
  }

  /** The names on the wire. */
  lemma KeyFields(p: PublicKeyMaterial, k: KeyedPublicKey, t: TlsSpki, i: WorkloadIdentity, e: KeysetEpoch)
    ensures Get(PublicKeyValue(p), "algo") == Some(Str(p.algo))
        && Get(PublicKeyValue(p), "public_key") == Some(Str(p.publicKey))
    ensures Get(KeyedValue(k), "key_id") == Some(Str(k.keyId)) && Get(KeyedValue(k), "algo") == Some(Str(k.algo))
         && Get(KeyedValue(k), "public_key") == Some(Str(k.publicKey))
    ensures Get(TlsValue(t), "spki_sha256") == Some(Str(t.spkiSha256))
         && Get(TlsValue(t), "domain") == if t.domain.Some? then Some(Str(t.domain.value)) else None
    ensures Get(IdentityValue(i), "public_key") == Some(PublicKeyValue(i.publicKey))
         && Get(IdentityValue(i), "subject") == Some(if i.subject.Some? then Str(i.subject.value) else Null)
    ensures Get(EpochValue(e), "version") == Some(Int(e.version))
        && Get(EpochValue(e), "not_after") == Some(Int(e.notAfter))
  {
  }

  lemma MaterialFields(k: WorkloadKeyset)
    ensures Get(MaterialValue(k), "workload_identity") == Some(IdentityValue(k.identity))
    ensures Get(MaterialValue(k), "receipt_signing_keys") == Some(KeyedList(k.receiptSigningKeys))
    ensures Get(MaterialValue(k), "e2ee_public_keys") == Some(KeyedList(k.e2eePublicKeys))
    ensures Get(MaterialValue(k), "tls_public_keys") == Some(TlsList(k.tlsPublicKeys))
  {
  }

  /** Equal material trees carry the same keys and subject; only the epoch is free. */
  lemma MaterialInjective(a: WorkloadKeyset, b: WorkloadKeyset)
    ensures MaterialValue(a) == MaterialValue(b) <==> a.(epoch := b.epoch) == b
  {
    if MaterialValue(a) == MaterialValue(b) {
      MaterialFields(a);
      MaterialFields(b);
      IdentityInjective(a.identity, b.identity);
      KeyedListInjective(a.receiptSigningKeys, b.receiptSigningKeys);
      KeyedListInjective(a.e2eePublicKeys, b.e2eePublicKeys);
      TlsListInjective(a.tlsPublicKeys, b.tlsPublicKeys);
    }
  }

  lemma KeysetInjective(a: WorkloadKeyset, b: WorkloadKeyset)
    requires KeysetValue(a) == KeysetValue(b)
    ensures a == b
  {
    assert MaterialValue(a) == MaterialValue(b);
    MaterialInjective(a, b);
    assert KeysetValue(a).fields["keyset_epoch"] == KeysetValue(b).fields["keyset_epoch"];
    EpochInjective(a.epoch, b.epoch);
  }

  // ----- digests and signing payloads -----

  /** `workload_keyset_digest`. */
  ghost function KeysetDigest(hash: Hash, k: WorkloadKeyset): string {
    hash(Encode(KeysetValue(k)))
  }

  /** `keyset_material_fingerprint`. */
  ghost function MaterialFingerprint(hash: Hash, k: WorkloadKeyset): string {
    hash(Encode(MaterialValue(k)))
  }

  /** The digest names one keyset: any difference, epoch included, changes it. */
  lemma KeysetDigestIdentifies(hash: Hash, a: WorkloadKeyset, b: WorkloadKeyset)
    requires NoCollision(hash, Encode(KeysetValue(a)), Encode(KeysetValue(b)))
    ensures KeysetDigest(hash, a) == KeysetDigest(hash, b) <==> a == b
  {
    if KeysetDigest(hash, a) == KeysetDigest(hash, b) {
      EncodeInjective(KeysetValue(a), KeysetValue(b));
      KeysetInjective(a, b);
    }
  }

  /** Same fingerprint exactly when the keysets agree on everything but the epoch. */
  lemma FingerprintIdentifiesMaterial(hash: Hash, a: WorkloadKeyset, b: WorkloadKeyset)
    requires NoCollision(hash, Encode(MaterialValue(a)), Encode(MaterialValue(b)))
    ensures MaterialFingerprint(hash, a) == MaterialFingerprint(hash, b) <==> a.(epoch := b.epoch) == b
  {
    MaterialInjective(a, b);
    if MaterialFingerprint(hash, a) == MaterialFingerprint(hash, b) {
      EncodeInjective(MaterialValue(a), MaterialValue(b));
    }
  }

  const ENDORSEMENT_PURPOSE := "aci.keyset.endorsement.v1"
  const REVOCATION_PURPOSE := "aci.keyset.revocation.v1"

  function PurposeValue(purpose: string, digest: string): (v: Value)
    ensures IntegerOnly(v)
  {
    Obj(map["purpose" := Str(purpose), "workload_keyset_digest" := Str(digest)])
  }

  /** The bytes the identity key signs to endorse a keyset. */
  ghost function EndorsementPayload(hash: Hash, k: WorkloadKeyset): seq<Byte> {
    Encode(PurposeValue(ENDORSEMENT_PURPOSE, KeysetDigest(hash, k)))
  }

  /** The bytes the identity key signs to revoke a keyset digest. */
  ghost function RevocationPayload(digest: string): seq<Byte> {
    Encode(PurposeValue(REVOCATION_PURPOSE, digest))
  }

  /** A signed payload commits to its purpose and to its digest. */
  lemma PayloadIdentifies(p: string, d: string, q: string, e: string)
    requires Encode(PurposeValue(p, d)) == Encode(PurposeValue(q, e))
    ensures p == q && d == e
  {
    EncodeInjective(PurposeValue(p, d), PurposeValue(q, e));
    var m, n := PurposeValue(p, d).fields, PurposeValue(q, e).fields;
    assert m["purpose"] == n["purpose"] && m["workload_keyset_digest"] == n["workload_keyset_digest"];
  }

  /** Domain separation: no signature on an endorsement is one on a revocation. */
  lemma PayloadsNeverCoincide(hash: Hash, k: WorkloadKeyset, digest: string)
    ensures EndorsementPayload(hash, k) != RevocationPayload(digest)
    ensures EndorsementPayload(hash, k)
            == Encode(Obj(map["purpose" := Str("aci.keyset.endorsement.v1"),
                              "workload_keyset_digest" := Str(hash(Encode(KeysetValue(k))))]))
    ensures RevocationPayload(digest)
            == Encode(Obj(map["purpose" := Str("aci.keyset.revocation.v1"), "workload_keyset_digest" := Str(digest)]))
  {
    if EndorsementPayload(hash, k) == RevocationPayload(digest) {
      PayloadIdentifies(ENDORSEMENT_PURPOSE, KeysetDigest(hash, k), REVOCATION_PURPOSE, digest);
    }
  }
}
