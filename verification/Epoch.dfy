/**
 The managed keyset epoch (`src/aggregator/keyset_epoch.rs`) and the list of issued
 revocations (`src/aggregator/revocation_store.rs`): one launch decides an epoch that
 no issued revocation names, and a history of launches never reuses a version.
 */
module Epoch {
  import opened Basics
  import opened Canonical
  import opened Keyset

  // ----- revocation list -----

  datatype Statement = Statement(
    workloadId: string, keysetDigest: string, purpose: string,
    algo: string, signature: string, revokedAt: U64)

  predicate Revoked(list: seq<Statement>, digest: string) {
    exists i :: 0 <= i < |list| && list[i].keysetDigest == digest
  }

  /** `record`: idempotent per digest, the first statement stays. */
  function Appended(list: seq<Statement>, s: Statement): seq<Statement> {
    if Revoked(list, s.keysetDigest) then list else list + [s]
  }

  /** What reading the store's file comes to. */
  datatype FileRead = Absent | Blank | Loaded(statements: seq<Statement>) | Invalid | Unreadable

  datatype OpenError = InvalidData | ReadFailed

  /** The statements in memory, mirrored to a JSON file when there is one. */
  class RevocationStore {
    const backed: bool
    var statements: seq<Statement>
    var file: seq<Statement>  // what a reopening would load; an absent file loads empty

    ghost predicate Valid()
      reads this
    {
      backed ==> file == statements
    }

    constructor FromFile(loaded: seq<Statement>)
      ensures Valid() && backed && statements == loaded && file == loaded
    {
      backed, statements, file := true, loaded, loaded;
    }

    constructor InMemory()
      ensures Valid() && !backed && statements == []
    {
      backed, statements, file := false, [], [];
    }

    /** `open`: a missing or blank file is an empty list; one that does not parse or cannot be
        read is an error, never an empty list. */
    static method Open(read: FileRead) returns (r: Result<RevocationStore, OpenError>)
      ensures r.Ok? <==> read.Absent? || read.Blank? || read.Loaded?
      ensures r.Ok? ==> fresh(r.value) && r.value.Valid() && r.value.backed
      ensures r.Ok? ==> r.value.statements == if read.Loaded? then read.statements else []
      ensures r.Err? ==> r.error == if read.Invalid? then InvalidData else ReadFailed
    {
      var loaded: seq<Statement> := [];
      match read {
        case Absent =>
        case Blank =>
        case Loaded(statements) => loaded := statements;
        case Invalid => return Err(InvalidData);
        case Unreadable => return Err(ReadFailed);
      }
      var store := new RevocationStore.FromFile(loaded);
      return Ok(store);
    }

    method IsRevoked(digest: string) returns (r: bool)
      ensures r <==> Revoked(statements, digest)
    {
      for i := 0 to |statements|
        invariant forall j :: 0 <= j < i ==> statements[j].keysetDigest != digest
      {
        if statements[i].keysetDigest == digest { return true; }
      }
      return false;
    }

    /** Nothing is ever dropped, and the file follows. */
    method Record(s: Statement)
      requires Valid()
      modifies this
      ensures Valid() && statements == Appended(old(statements), s)
      ensures forall d :: Revoked(statements, d) <==> d == s.keysetDigest || Revoked(old(statements), d)
    {
      AppendedRevokes(statements, s);
      var known := IsRevoked(s.keysetDigest);
      if known { return; }
      statements := statements + [s];
      if backed { file := statements; }
    }
  }

  /** The revoked digests grow by exactly the new one. */
  lemma AppendedRevokes(list: seq<Statement>, s: Statement)
    ensures forall d :: Revoked(Appended(list, s), d) <==> d == s.keysetDigest || Revoked(list, d)
  {
    if !Revoked(list, s.keysetDigest) {
      var all := list + [s];
      assert all[|list|] == s;
      assert forall i :: 0 <= i < |list| ==> all[i] == list[i];
    }
  }

  // ----- one launch -----

  datatype PersistedEpoch = PersistedEpoch(version: U64, notAfter: U64, fingerprint: string) {
    function Epoch(): KeysetEpoch {
      KeysetEpoch(version, notAfter)
    }
  }

  function SaturatingAdd(a: U64, b: U64): U64 {
    if a + b > U64_MAX then U64_MAX else a + b
  }

  /** `version + k` in a `u64`, wrapping as release builds do. */
  function Advance(version: U64, k: nat): U64 {
    (version + k) % (U64_MAX + 1)
  }

  /** `resolve_epoch`. */
  function ResolveEpoch(previous: Option<PersistedEpoch>, fingerprint: string, now: U64, window: U64): PersistedEpoch {
    match previous
    case Some(prev) =>
      if prev.fingerprint == fingerprint && prev.notAfter > now then prev
      else PersistedEpoch(Advance(prev.version, 1), SaturatingAdd(now, window), fingerprint)
    case None => PersistedEpoch(1, SaturatingAdd(now, window), fingerprint)
  }

  function RollForward(previous: PersistedEpoch, now: U64, window: U64): PersistedEpoch {
    PersistedEpoch(Advance(previous.version, 1), SaturatingAdd(now, window), previous.fingerprint)
  }

  /** The epoch after `k` rolls. */
  function Rolled(start: PersistedEpoch, k: nat, now: U64, window: U64): PersistedEpoch {
    if k == 0 then start else PersistedEpoch(Advance(start.version, k), SaturatingAdd(now, window), start.fingerprint)
  }

  lemma RollOnce(start: PersistedEpoch, k: nat, now: U64, window: U64)
    ensures RollForward(Rolled(start, k, now, window), now, window) == Rolled(start, k + 1, now, window)
  {
    AdvanceTwice(start.version, k);
  }

  lemma AdvanceTwice(version: U64, k: nat)
    ensures Advance(Advance(version, k), 1) == Advance(version, k + 1)
  {
    var m := U64_MAX + 1;
    var q := (version + k) / m;
    assert Advance(version, k) == version + k - q * m;
    assert (version + k - q * m + 1) % m == (version + k + 1) % m;
  }

  /** Fewer than 2^64 rolls never meet the same version twice. */
  lemma AdvanceDistinct(version: U64, i: nat, j: nat)
    requires i < j <= U64_MAX
    ensures Advance(version, i) != Advance(version, j)
  {
    var m := U64_MAX + 1;
    var a, b := (version + i) / m, (version + j) / m;
    assert version + i == a * m + Advance(version, i) && version + j == b * m + Advance(version, j);
  }

  /** What one process start depends on besides the persisted state: the fingerprint of
      its key material, the keyset digest those keys have under each epoch, the clock,
      the validity window and the issued revocations. */
  datatype Boot = Boot(
    fingerprint: string, digest: KeysetEpoch -> string, now: U64, window: U64, revocations: seq<Statement>)

  function Start(previous: Option<PersistedEpoch>, b: Boot): PersistedEpoch {
    ResolveEpoch(previous, b.fingerprint, b.now, b.window)
  }

  /** The keyset digest after `k` rolls. */
  function DigestAt(b: Boot, start: PersistedEpoch, k: nat): string {
    b.digest(Rolled(start, k, b.now, b.window).Epoch())
  }

  /** Digests of the epochs the loop can visit differ. */
  ghost predicate DistinctRolls(b: Boot, start: PersistedEpoch) {
    forall i: nat, j: nat :: i < j <= |b.revocations| ==> DigestAt(b, start, i) != DigestAt(b, start, j)
  }

  /** Is the epoch after `k` rolls named by a revocation? */
  predicate RevokedAt(b: Boot, start: PersistedEpoch, k: nat) {
    Revoked(b.revocations, DigestAt(b, start, k))
  }

  /** The outcome of a launch: the first un-revoked epoch at or after the resolved one. */
  ghost predicate Launched(previous: Option<PersistedEpoch>, b: Boot, next: PersistedEpoch) {
    exists k: nat :: k <= |b.revocations| && LaunchedAfter(Start(previous, b), b, k, next)
  }

  ghost predicate LaunchedAfter(start: PersistedEpoch, b: Boot, k: nat, next: PersistedEpoch) {
    && next == Rolled(start, k, b.now, b.window)
    && !RevokedAt(b, start, k)
    && forall j: nat :: j < k ==> RevokedAt(b, start, j)
  }

  lemma {:induction false} Pigeonhole(ds: seq<string>, list: seq<Statement>)
    requires forall i, j :: 0 <= i < j < |ds| ==> ds[i] != ds[j]
    requires forall i :: 0 <= i < |ds| ==> Revoked(list, ds[i])
    ensures |ds| <= |list|
  {
    if ds != [] {
      var last := ds[|ds| - 1];
      var k :| 0 <= k < |list| && list[k].keysetDigest == last;
      var rest := list[..k] + list[k + 1..];
      forall i | 0 <= i < |ds| - 1 ensures Revoked(rest, ds[i]) {
        var m :| 0 <= m < |list| && list[m].keysetDigest == ds[i];
        assert rest[if m < k then m else m - 1] == list[m];
      }
      Pigeonhole(ds[..|ds| - 1], rest);
    }
  }

  /** Rolls past `n` revoked digests need `n` statements, duplicates or not. */
  lemma RollsBounded(start: PersistedEpoch, n: nat, b: Boot)
    requires DistinctRolls(b, start) && n <= |b.revocations| + 1
    requires forall j: nat :: j < n ==> RevokedAt(b, start, j)
    ensures n <= |b.revocations|
  {
    var ds := seq(n, j requires 0 <= j < n => DigestAt(b, start, j));
    forall i | 0 <= i < n ensures Revoked(b.revocations, ds[i]) {
      assert RevokedAt(b, start, i);
    }
    forall i, j | 0 <= i < j < n ensures ds[i] != ds[j] {
      assert DigestAt(b, start, i) != DigestAt(b, start, j);
    }
    Pigeonhole(ds, b.revocations);
  }

  // ----- the launcher on real keysets -----

  /** The canonical bytes of these keys after `k` rolls. */
  ghost function BytesAt(keys: WorkloadKeyset, b: Boot, start: PersistedEpoch, k: nat): seq<Byte> {
    Encode(KeysetValue(keys.(epoch := Rolled(start, k, b.now, b.window).Epoch())))
  }

  /** SHA-256 does not collide on the keysets the loop can visit. */
  ghost predicate CollisionFree(hash: Hash, keys: WorkloadKeyset, b: Boot, start: PersistedEpoch) {
    forall i: nat, j: nat :: i < j <= |b.revocations| ==>
      NoCollision(hash, BytesAt(keys, b, start, i), BytesAt(keys, b, start, j))
  }

  /** `make_keyset(e)` and its digest. */
  ghost function DigestUnder(hash: Hash, keys: WorkloadKeyset, e: KeysetEpoch): string {
    KeysetDigest(hash, keys.(epoch := e))
  }

  /** `b` is a start with these keys: its fingerprint and digests are theirs. */
  ghost predicate Describes(b: Boot, hash: Hash, keys: WorkloadKeyset) {
    && b.fingerprint == MaterialFingerprint(hash, keys)
    && forall e: KeysetEpoch {:trigger DigestUnder(hash, keys, e)} :: b.digest(e) == DigestUnder(hash, keys, e)
  }

  /** Every start is described by some `Boot`. */
  lemma BootExists(hash: Hash, keys: WorkloadKeyset, now: U64, window: U64, list: seq<Statement>) returns (b: Boot)
    ensures Describes(b, hash, keys) && b.now == now && b.window == window && b.revocations == list
  {
    b := Boot(MaterialFingerprint(hash, keys), (e: KeysetEpoch) => DigestUnder(hash, keys, e), now, window, list);
  }

  /** Digests of distinct versions differ: canonical bytes identify the keyset. */
  lemma DigestsDistinct(b: Boot, hash: Hash, keys: WorkloadKeyset, start: PersistedEpoch)
    requires Describes(b, hash, keys) && CollisionFree(hash, keys, b, start) && |b.revocations| <= U64_MAX
    ensures DistinctRolls(b, start)
  {
    forall i: nat, j: nat | i < j <= |b.revocations| ensures DigestAt(b, start, i) != DigestAt(b, start, j) {
      var d, e := Rolled(start, i, b.now, b.window).Epoch(), Rolled(start, j, b.now, b.window).Epoch();
      RollsDiffer(start, i, j, b.now, b.window);
      assert NoCollision(hash, BytesAt(keys, b, start, i), BytesAt(keys, b, start, j));
      KeysetDigestIdentifies(hash, keys.(epoch := d), keys.(epoch := e));
      assert DigestUnder(hash, keys, d) != DigestUnder(hash, keys, e);
    }
  }

  lemma RollsDiffer(start: PersistedEpoch, i: nat, j: nat, now: U64, window: U64)
    requires i < j <= U64_MAX
    ensures Rolled(start, i, now, window).version != Rolled(start, j, now, window).version
  {
    AdvanceDistinct(start.version, i, j);
    assert Advance(start.version, 0) == start.version;
  }

  method DigestOf(hash: Hash, keys: WorkloadKeyset, e: KeysetEpoch, ghost b: Boot) returns (d: string)
    requires Describes(b, hash, keys)
    ensures d == b.digest(e)
  {
    var bytes := Canonicalize(KeysetValue(keys.(epoch := e)));
    d := hash(bytes.value);
    assert d == DigestUnder(hash, keys, e);
  }

  /** The fingerprint is taken under the placeholder epoch; the epoch does not matter. */
  method FingerprintOf(hash: Hash, keys: WorkloadKeyset, ghost b: Boot) returns (d: string)
    requires Describes(b, hash, keys)
    ensures d == b.fingerprint
  {
    var blank := keys.(epoch := KeysetEpoch(0, 0));
    var bytes := Canonicalize(MaterialValue(blank));
    d := hash(bytes.value);
    MaterialInjective(blank, keys);
  }

  /** One turn of the loop's test. */
  method NamedByRevocation(hash: Hash, keys: WorkloadKeyset, store: RevocationStore, e: PersistedEpoch, ghost b: Boot)
      returns (revoked: bool)
    requires Describes(b, hash, keys) && b.revocations == store.statements
    ensures revoked <==> Revoked(b.revocations, b.digest(e.Epoch()))
  {
    var digest := DigestOf(hash, keys, e.Epoch(), b);
    revoked := store.IsRevoked(digest);
  }

  /** The loop: list length plus two turns always suffice. */
  method RollPastRevocations(hash: Hash, keys: WorkloadKeyset, store: RevocationStore, start: PersistedEpoch,
                             now: U64, window: U64, ghost b: Boot)
    returns (resolved: PersistedEpoch)
    requires Describes(b, hash, keys) && b.now == now && b.window == window && b.revocations == store.statements
    requires DistinctRolls(b, start)
    ensures exists k: nat :: k <= |b.revocations| && LaunchedAfter(start, b, k, resolved)
  {
    resolved := start;
    var maxRolls := |store.statements| + 1;
    for i := 0 to maxRolls + 1
      invariant i <= |b.revocations|
      invariant resolved == Rolled(start, i, b.now, b.window)
      invariant forall j: nat :: j < i ==> RevokedAt(b, start, j)
    {
      var revoked := NamedByRevocation(hash, keys, store, resolved, b);
      if !revoked {
        assert LaunchedAfter(start, b, i, resolved);
        return;
      }
      assert RevokedAt(b, start, i);
      RollsBounded(start, i + 1, b);
      RollOnce(start, i, now, window);
      resolved := RollForward(resolved, now, window);
    }
  }

  /** `resolve_launcher_epoch`: always an un-revoked epoch, even where the version wraps. */
  method ResolveLauncherEpoch(hash: Hash, previous: Option<PersistedEpoch>, keys: WorkloadKeyset,
                              store: RevocationStore, now: U64, window: U64, ghost b: Boot)
    returns (resolved: PersistedEpoch)
    requires Describes(b, hash, keys) && b.now == now && b.window == window && b.revocations == store.statements
    requires CollisionFree(hash, keys, b, Start(previous, b))
    requires |store.statements| < U64_MAX  // a list's length fits a `usize`
    ensures Launched(previous, b, resolved)
  {
    ghost var start := Start(previous, b);
    DigestsDistinct(b, hash, keys, start);
    var fingerprint := FingerprintOf(hash, keys, b);
    resolved := ResolveEpoch(previous, fingerprint, now, window);
    assert resolved == start;
    resolved := RollPastRevocations(hash, keys, store, resolved, now, window, b);
  }

  // ----- histories of launches -----

  /** `states[i]` is what the `i`-th start persisted and served. */
  ghost predicate History(boots: seq<Boot>, states: seq<PersistedEpoch>) {
    && |states| == |boots|
    && forall i {:trigger Before(states, i)} :: 0 <= i < |boots| ==>
         Launched(Before(states, i), boots[i], states[i]) && |boots[i].revocations| < U64_MAX
  }

  /** The persisted state the `i`-th start finds. */
  function Before(states: seq<PersistedEpoch>, i: nat): Option<PersistedEpoch>
    requires i <= |states|
  {
    if i == 0 then None else Some(states[i - 1])
  }

  /** By how many versions a launch moves on: one for new keys or a closed window, and one
      for each roll. */
  function Moves(prev: PersistedEpoch, b: Boot, rolls: nat): nat {
    (if prev.fingerprint == b.fingerprint && b.now < prev.notAfter then 0 else 1) + rolls
  }

  /** Wrapping included: the version goes back exactly when those moves pass the last `u64`,
      and stays exactly when there are none. */
  lemma VersionMovesExactly(prev: PersistedEpoch, b: Boot, rolls: nat, next: PersistedEpoch)
    requires rolls <= |b.revocations| < U64_MAX && LaunchedAfter(Start(Some(prev), b), b, rolls, next)
    ensures prev.version <= next.version <==> prev.version + Moves(prev, b, rolls) <= U64_MAX
    ensures next.version == prev.version <==> Moves(prev, b, rolls) == 0
    ensures prev.version + Moves(prev, b, rolls) <= U64_MAX ==> next.version == prev.version + Moves(prev, b, rolls)
  {
    var start, moves := Start(Some(prev), b), Moves(prev, b, rolls);
    AdvanceAgain(prev.version, rolls);
    AdvanceInRange(prev.version, 0);
    AdvanceInRange(start.version, 0);
    assert next.version == Advance(prev.version, moves);
    AdvanceWraps(prev.version, moves);
  }

  lemma AdvanceAgain(version: U64, k: nat)
    ensures Advance(Advance(version, 1), k) == Advance(version, k + 1)
  {
    var m := U64_MAX + 1;
    var q := (version + 1) / m;
    assert Advance(version, 1) == version + 1 - q * m;
    assert (version + 1 - q * m + k) % m == (version + 1 + k) % m;
  }

  lemma AdvanceWraps(version: U64, k: nat)
    requires k <= U64_MAX
    ensures Advance(version, k) == if version + k <= U64_MAX then version + k else version + k - U64_MAX - 1
  {
    AdvanceInRange(version, k);
  }

  lemma AdvanceInRange(version: U64, k: nat)
    ensures version + k <= U64_MAX ==> Advance(version, k) == version + k
  {
  }

  /** The moves of this launch stay within the `u64`. */
  ghost predicate InRange(prev: PersistedEpoch, b: Boot, next: PersistedEpoch) {
    exists k: nat :: k <= |b.revocations| && LaunchedAfter(Start(Some(prev), b), b, k, next)
                     && prev.version + Moves(prev, b, k) <= U64_MAX
  }

  /** One launch on top of a previous state: the version stays exactly when the keys are
      the same, the window is still open and the old digest is not revoked, and then nothing
      changes.  It goes back exactly when its moves leave the `u64`. */
  lemma LaunchStep(prev: PersistedEpoch, b: Boot, next: PersistedEpoch)
    requires Launched(Some(prev), b, next) && |b.revocations| < U64_MAX
    ensures next.version == prev.version <==>
              && prev.fingerprint == b.fingerprint
              && b.now < prev.notAfter
              && !Revoked(b.revocations, b.digest(prev.Epoch()))
    ensures next.version == prev.version ==> next == prev
    ensures prev.version <= next.version <==> InRange(prev, b, next)
  {
    var start := Start(Some(prev), b);
    var k: nat :| k <= |b.revocations| && LaunchedAfter(start, b, k, next);
    VersionMovesExactly(prev, b, k, next);
    assert k > 0 ==> RevokedAt(b, start, 0);
    forall j: nat | j <= |b.revocations| && LaunchedAfter(start, b, j, next) ensures j == k {
      FirstOpenIsUnique(start, b, j, k, next);
    }
  }

  lemma FirstOpenIsUnique(start: PersistedEpoch, b: Boot, j: nat, k: nat, next: PersistedEpoch)
    requires LaunchedAfter(start, b, j, next) && LaunchedAfter(start, b, k, next)
    ensures j == k
  {
  }

  /** A launch serves its own keys, un-revoked, under an expiry that lies in the future. */
  lemma ServedEpochIsOpen(previous: Option<PersistedEpoch>, b: Boot, next: PersistedEpoch)
    requires Launched(previous, b, next)
    ensures next.fingerprint == b.fingerprint
    ensures !Revoked(b.revocations, b.digest(next.Epoch()))
    ensures b.window > 0 && b.now < U64_MAX ==> b.now < next.notAfter
  {
    var start := Start(previous, b);
    var k: nat :| k <= |b.revocations| && LaunchedAfter(start, b, k, next);
  }

  /** A launch that moves the version, or is the first, opens a window from now on; the end of
      the `u64` ends it early. */
  lemma NewVersionOpensWindow(previous: Option<PersistedEpoch>, b: Boot, next: PersistedEpoch)
    requires Launched(previous, b, next) && |b.revocations| < U64_MAX
    requires previous.Some? ==> next.version != previous.value.version
    ensures next.notAfter == if b.now + b.window <= U64_MAX then b.now + b.window else U64_MAX
  {
    if previous.Some? { LaunchStep(previous.value, b, next); }
    var k: nat :| k <= |b.revocations| && LaunchedAfter(Start(previous, b), b, k, next);
  }

  /** The first launch takes the first version from 1 on whose digest is not revoked. */
  lemma FirstVersionIsOne(b: Boot, next: PersistedEpoch, v: U64)
    requires Launched(None, b, next) && |b.revocations| < U64_MAX
    ensures 1 <= next.version <= |b.revocations| + 1
    ensures 1 <= v < next.version ==> Revoked(b.revocations, b.digest(KeysetEpoch(v, next.notAfter)))
  {
    var start := Start(None, b);
    var k: nat :| k <= |b.revocations| && LaunchedAfter(start, b, k, next);
    AdvanceInRange(1, k);
    if 1 <= v < next.version {
      AdvanceInRange(1, v - 1);
      assert RevokedAt(b, start, v - 1);
    }
  }

  /** No launch of the history runs out of versions. */
  ghost predicate NeverWraps(boots: seq<Boot>, states: seq<PersistedEpoch>)
    requires |states| == |boots|
  {
    forall i :: 0 < i < |boots| ==> InRange(states[i - 1], boots[i], states[i])
  }

  lemma HistoryStep(boots: seq<Boot>, states: seq<PersistedEpoch>, i: nat)
    requires History(boots, states) && i < |states|
    ensures states[i].fingerprint == boots[i].fingerprint
    ensures i > 0 ==> (states[i - 1].version <= states[i].version <==> InRange(states[i - 1], boots[i], states[i]))
    ensures i > 0 && states[i - 1].version == states[i].version ==> states[i - 1] == states[i]
  {
    ServedEpochIsOpen(Before(states, i), boots[i], states[i]);
    if i > 0 { LaunchStep(states[i - 1], boots[i], states[i]); }
  }

  /** From one restart to the next the version never goes back, if and only if no launch runs
      out of versions. */
  lemma VersionsRiseExactly(boots: seq<Boot>, states: seq<PersistedEpoch>)
    requires History(boots, states)
    ensures (forall i :: 0 < i < |states| ==> states[i - 1].version <= states[i].version) <==> NeverWraps(boots, states)
  {
    forall i | 0 < i < |states|
      ensures states[i - 1].version <= states[i].version <==> InRange(states[i - 1], boots[i], states[i])
    {
      HistoryStep(boots, states, i);
    }
  }

  /** Over every history in which none does, versions never go back over any stretch, and one
      version always means one epoch of one set of keys. */
  lemma {:induction false} VersionsNameEpochs(boots: seq<Boot>, states: seq<PersistedEpoch>, i: nat, j: nat)
    requires History(boots, states) && NeverWraps(boots, states) && i <= j < |states|
    ensures states[i].version <= states[j].version
    ensures states[i].version == states[j].version ==>
        states[i] == states[j] && boots[i].fingerprint == boots[j].fingerprint
    decreases j - i
  {
    HistoryStep(boots, states, i);
    HistoryStep(boots, states, j);
    if i < j { VersionsNameEpochs(boots, states, i, j - 1); }
  }

  /** On real keysets: starts that serve the same version serve the same keyset. */
  lemma SameVersionSameKeyset(hash: Hash, keys: seq<WorkloadKeyset>, boots: seq<Boot>, states: seq<PersistedEpoch>,
      i: nat, j: nat)
    requires History(boots, states) && NeverWraps(boots, states) && |keys| == |boots| && i <= j < |states|
    requires boots[i].fingerprint == MaterialFingerprint(hash, keys[i])
    requires boots[j].fingerprint == MaterialFingerprint(hash, keys[j])
    requires NoCollision(hash, Encode(MaterialValue(keys[i])), Encode(MaterialValue(keys[j])))
    requires states[i].version == states[j].version
    ensures keys[i].(epoch := states[i].Epoch()) == keys[j].(epoch := states[j].Epoch())
  {
    VersionsNameEpochs(boots, states, i, j);
    FingerprintIdentifiesMaterial(hash, keys[i], keys[j]);
  }

  /** Without room the version starts over: new keys on top of the last version. */
  lemma VersionWraps(prev: PersistedEpoch, b: Boot, next: PersistedEpoch)
    requires prev.version == U64_MAX && prev.fingerprint != b.fingerprint && b.revocations == []
    requires Launched(Some(prev), b, next)
    ensures next.version == 0
  {
  }

  // ----- runs of the store and the launcher -----

  /** The list in memory, the file, and the epoch last persisted. */
  datatype Life = Life(list: seq<Statement>, file: seq<Statement>, epoch: Option<PersistedEpoch>)

  datatype LifeStep = Recorded(statement: Statement) | Reopened | Started(boot: Boot)

  /** One step of a file-backed store: the effects of `Record`, of `Open` on the file as it
      is, and of a launch with the list in memory. */
  ghost predicate LifeNext(s: Life, e: LifeStep, t: Life) {
    match e
    case Recorded(x) => t.list == Appended(s.list, x) && t.file == t.list && t.epoch == s.epoch
    case Reopened => t.list == s.file && t.file == s.file && t.epoch == s.epoch
    case Started(b) =>
      && t.list == s.list && t.file == s.file && b.revocations == s.list
      && t.epoch.Some? && Launched(s.epoch, b, t.epoch.value)
  }

  ghost predicate LifeRun(steps: seq<LifeStep>, states: seq<Life>) {
    && |states| == |steps| + 1
    && states[0].list == states[0].file
    && forall i :: 0 <= i < |steps| ==> LifeNext(states[i], steps[i], states[i + 1])
  }

  /** The store's own methods take these steps. */
  method RecordStep(store: RevocationStore, s: Statement, ghost epoch: Option<PersistedEpoch>)
    requires store.Valid() && store.backed
    modifies store
    ensures store.Valid()
    ensures LifeNext(Life(old(store.statements), old(store.file), epoch), Recorded(s),
        Life(store.statements, store.file, epoch))
  {
    store.Record(s);
  }

  method ReopenStep(store: RevocationStore, ghost epoch: Option<PersistedEpoch>) returns (again: RevocationStore)
    requires store.Valid() && store.backed
    ensures again.Valid() && again.backed
    ensures LifeNext(Life(store.statements, store.file, epoch), Reopened, Life(again.statements, again.file, epoch))
  {
    var r := RevocationStore.Open(Loaded(store.file));
    again := r.value;
  }

  /** What is revoked stays revoked, and the file keeps up. */
  lemma {:induction false} RevokedStays(steps: seq<LifeStep>, states: seq<Life>, i: nat, j: nat, digest: string)
    requires LifeRun(steps, states) && i <= j < |states| && Revoked(states[i].list, digest)
    ensures Revoked(states[j].list, digest)
    decreases j
  {
    if i < j {
      RevokedStays(steps, states, i, j - 1, digest);
      FileKeepsUp(steps, states, j - 1);
      assert LifeNext(states[j - 1], steps[j - 1], states[j - 1 + 1]);
      if steps[j - 1].Recorded? { AppendedRevokes(states[j - 1].list, steps[j - 1].statement); }
    }
  }

  lemma {:induction false} FileKeepsUp(steps: seq<LifeStep>, states: seq<Life>, i: nat)
    requires LifeRun(steps, states) && i < |states|
    ensures states[i].file == states[i].list
  {
    if i > 0 {
      FileKeepsUp(steps, states, i - 1);
      assert LifeNext(states[i - 1], steps[i - 1], states[i - 1 + 1]);
    }
  }

  /** Once a digest is recorded, no later launch serves it, whatever restarts, further
      revocations and launches lie between. */
  lemma RevokedNeverServed(steps: seq<LifeStep>, states: seq<Life>, i: nat, j: nat)
    requires LifeRun(steps, states) && i < j < |steps| && steps[i].Recorded? && steps[j].Started?
    ensures states[j + 1].epoch.Some?
    ensures steps[j].boot.digest(states[j + 1].epoch.value.Epoch()) != steps[i].statement.keysetDigest
  {
    assert LifeNext(states[i], steps[i], states[i + 1]) && LifeNext(states[j], steps[j], states[j + 1]);
    AppendedRevokes(states[i].list, steps[i].statement);
    RevokedStays(steps, states, i + 1, j, steps[i].statement.keysetDigest);
    ServedEpochIsOpen(states[j].epoch, steps[j].boot, states[j + 1].epoch.value);
  }
}
