/**
 The in-memory session index (`src/aggregator/session_store.rs`): an id map plus a map
 from retention deadline to the ids that lapse then, both changed in place.  Callers see
 a plain map that never forgets, with lapsed entries treated as absent.
 */
module SessionIndex {
  import opened Basics
  import opened Ordering
  import opened Keyset
  import opened Session

  type Sessions = map<string, AttestedSession>

  // ----- listing order -----

  /** Newest first, then by id: `sort_sessions_newest_first` on (established_at, id). */
  predicate NewerFirst(a: (int, string), b: (int, string)) {
    a.0 > b.0 || (a.0 == b.0 && LexLess(CodePoints(a.1), CodePoints(b.1)))
  }

  lemma NewerFirstIsStrictOrder()
    ensures StrictOrder(NewerFirst)
  {
    forall x: (int, string) ensures !NewerFirst(x, x) {
      LexIrreflexive(CodePoints(x.1));
    }
    forall x: (int, string), y: (int, string) ensures NewerFirst(x, y) || x == y || NewerFirst(y, x) {
      LexTotal(CodePoints(x.1), CodePoints(y.1));
      if CodePoints(x.1) == CodePoints(y.1) {
        CodePointsInjective(x.1, y.1);
      }
    }
    forall x: (int, string), y: (int, string), z: (int, string) | NewerFirst(x, y) && NewerFirst(y, z)
        ensures NewerFirst(x, z) {
      if x.0 == y.0 == z.0 { LexTransitive(CodePoints(x.1), CodePoints(y.1), CodePoints(z.1)); }
    }
  }

  // ----- what callers see -----

  predicate Alive(m: Sessions, id: string, now: int) {
    id in m && now < m[id].expiresAt
  }

  /** The map without the entries whose deadline has passed. */
  function Live(m: Sessions, now: int): Sessions {
    map id | id in m && now < m[id].expiresAt :: m[id]
  }

  function Lookup(m: Sessions, id: string, now: int): Option<AttestedSession> {
    if Alive(m, id, now) then Some(m[id]) else None
  }

  function Extended(m: Sessions, id: string, expiresAt: U64): Sessions
    requires id in m
  {
    m[id := m[id].(expiresAt := expiresAt)]
  }

  predicate Listable(m: Sessions, upstream: Option<string>, now: int, id: string) {
    Alive(m, id, now) && (upstream.None? || m[id].upstreamName == upstream.value)
  }

  function ListingKeys(m: Sessions, upstream: Option<string>, now: int): set<(int, string)> {
    set id | id in m && Listable(m, upstream, now, id) :: (m[id].establishedAt, id)
  }

  /** The sessions named by sort keys. */
  function Named(m: Sessions, keys: seq<(int, string)>): seq<AttestedSession>
    requires forall k :: k in keys ==> k.1 in m
  {
    seq(|keys|, i requires 0 <= i < |keys| => assert keys[i] in keys; m[keys[i].1])
  }

  ghost function Listing(m: Sessions, upstream: Option<string>, now: int): seq<AttestedSession> {
    NewerFirstIsStrictOrder();
    Named(m, Arrange(NewerFirst, ListingKeys(m, upstream, now)))
  }

  /** Newest first, and among equals by id. */
  ghost predicate Earlier(a: AttestedSession, b: AttestedSession) {
    || a.establishedAt > b.establishedAt
    || (a.establishedAt == b.establishedAt && Precedes((x: char, y: char) => x < y, a.sessionId, b.sessionId))
  }

  /** A listing: the live sessions of the upstream and no others, each once, newest first. */
  ghost predicate IsListing(m: Sessions, upstream: Option<string>, now: int, r: seq<AttestedSession>) {
    && (forall i :: 0 <= i < |r| ==> r[i].sessionId in m && r[i] == m[r[i].sessionId])
    && (forall i :: 0 <= i < |r| ==> now < r[i].expiresAt && (upstream.Some? ==> r[i].upstreamName == upstream.value))
    && (forall id :: id in m && now < m[id].expiresAt && (upstream.Some? ==> m[id].upstreamName == upstream.value) ==>
          m[id] in r)
    && (forall i, j :: 0 <= i < j < |r| ==> r[i].sessionId != r[j].sessionId && Earlier(r[i], r[j]))
  }

  lemma SameBeginning(a: string, b: string, i: nat)
    requires i <= |a| && i <= |b|
    ensures CodePoints(a)[..i] == CodePoints(b)[..i] <==> a[..i] == b[..i]
  {
    var x, y := CodePoints(a), CodePoints(b);
    if x[..i] == y[..i] {
      forall k | 0 <= k < i ensures a[..i][k] == b[..i][k] {
        assert x[..i][k] == a[k] as int && y[..i][k] == b[k] as int;
      }
    }
    if a[..i] == b[..i] {
      forall k | 0 <= k < i ensures x[..i][k] == y[..i][k] {
        assert a[..i][k] == a[k] && b[..i][k] == b[k];
      }
    }
  }

  lemma StringOrder(a: string, b: string)
    ensures LexLess(CodePoints(a), CodePoints(b)) <==> Precedes((x: char, y: char) => x < y, a, b)
  {
    var x, y := CodePoints(a), CodePoints(b);
    LexPrecedes(x, y);
    assert |x| == |a| && |y| == |b|;
    if i :| 0 <= i <= |x| && i < |y| && x[..i] == y[..i] && (i == |x| || x[i] < y[i]) {
      SameBeginning(a, b, i);
      assert i == |a| || a[i] < b[i];
    }
    if i :| 0 <= i <= |a| && i < |b| && a[..i] == b[..i] && (i == |a| || a[i] < b[i]) {
      SameBeginning(a, b, i);
      assert i == |x| || x[i] < y[i];
    }
  }

  /** Every index lists the live sessions of an upstream, each once, newest first. */
  lemma ListingIsNewestFirst(m: Sessions, upstream: Option<string>, now: int)
    requires forall id :: id in m ==> m[id].sessionId == id
    ensures IsListing(m, upstream, now, Listing(m, upstream, now))
  {
    NewerFirstIsStrictOrder();
    var keys, r := Arrange(NewerFirst, ListingKeys(m, upstream, now)), Listing(m, upstream, now);
    assert |r| == |keys|;
    forall i | 0 <= i < |r|
      ensures Listable(m, upstream, now, keys[i].1)
      ensures r[i].sessionId == keys[i].1 && r[i] == m[keys[i].1] && keys[i].0 == r[i].establishedAt
    {
      assert keys[i] in keys && keys[i] in ListingKeys(m, upstream, now);
    }
    forall id | Listable(m, upstream, now, id) ensures m[id] in r {
      assert (m[id].establishedAt, id) in ListingKeys(m, upstream, now);
      var i :| 0 <= i < |keys| && keys[i] == (m[id].establishedAt, id);
      assert r[i] == m[id];
    }
    forall i, j | 0 <= i < j < |r| ensures r[i].sessionId != r[j].sessionId && Earlier(r[i], r[j]) {
      assert NewerFirst(keys[i], keys[j]);
      StringOrder(keys[i].1, keys[j].1);
      LexIrreflexive(CodePoints(keys[i].1));
    }
  }

  datatype Op =
    | Put(session: AttestedSession, ts: U64)
    | Fetch(id: string, now: U64)
    | Renew(id: string, expiresAt: U64, now: U64)
    | List(upstream: Option<string>, now: U64)

  function Time(op: Op): int {
    if op.Put? then op.ts else op.now
  }

  datatype Answer =
    | Stored
    | Fetched(session: Option<AttestedSession>)
    | Renewed(ok: bool)
    | Listed(sessions: seq<AttestedSession>)

  /** The reference: a map that never evicts. */
  function RefAfter(m: Sessions, op: Op): Sessions {
    match op
    case Put(s, _) => m[s.sessionId := s]
    case Renew(id, expiresAt, now) => if Alive(m, id, now) then Extended(m, id, expiresAt) else m
    case _ => m
  }

  /** The answer an operation has on a map of sessions. */
  ghost function AnswerOn(m: Sessions, op: Op): Answer {
    match op
    case Put(_, _) => Stored
    case Fetch(id, now) => Fetched(Lookup(m, id, now))
    case Renew(id, _, now) => Renewed(Alive(m, id, now))
    case List(upstream, now) => Listed(Listing(m, upstream, now))
  }

  /** What the index keeps after an operation. */
  function IndexAfter(m: Sessions, op: Op): Sessions {
    match op
    case Put(s, ts) => Live(m[s.sessionId := s], ts)
    case Fetch(id, now) => if id in m && !Alive(m, id, now) then m - {id} else m
    case Renew(id, expiresAt, now) =>
      if Alive(m, id, now) then Extended(Live(m, now), id, expiresAt) else Live(m, now)
    case List(_, _) => m
  }

  ghost function RunIndex(m: Sessions, ops: seq<Op>): seq<Answer>
    decreases |ops|
  {
    if ops == [] then [] else [AnswerOn(m, ops[0])] + RunIndex(IndexAfter(m, ops[0]), ops[1..])
  }

  ghost function RunRef(m: Sessions, ops: seq<Op>): seq<Answer>
    decreases |ops|
  {
    if ops == [] then [] else [AnswerOn(m, ops[0])] + RunRef(RefAfter(m, ops[0]), ops[1..])
  }

  /** The index holds part of the reference, and all of it that is alive at `clock`. */
  ghost predicate Tracks(index: Sessions, ref: Sessions, clock: int) {
    && (forall id :: id in index ==> id in ref && index[id] == ref[id])
    && (forall id :: Alive(ref, id, clock) ==> id in index)
  }

  lemma TracksStep(index: Sessions, ref: Sessions, clock: int, op: Op)
    requires Tracks(index, ref, clock) && clock <= Time(op)
    ensures Tracks(IndexAfter(index, op), RefAfter(ref, op), Time(op))
    ensures AnswerOn(index, op) == AnswerOn(ref, op)
  {
    if op.List? { ListingAgrees(index, ref, op.upstream, op.now); }
  }

  lemma ListingAgrees(index: Sessions, ref: Sessions, upstream: Option<string>, now: int)
    requires Tracks(index, ref, now)
    ensures Listing(index, upstream, now) == Listing(ref, upstream, now)
  {
    NewerFirstIsStrictOrder();
    assert forall id :: Listable(index, upstream, now, id) <==> Listable(ref, upstream, now, id);
    assert ListingKeys(index, upstream, now) == ListingKeys(ref, upstream, now);
    var keys := Arrange(NewerFirst, ListingKeys(ref, upstream, now));
    assert forall k :: k in keys ==> k.1 in index && k.1 in ref && index[k.1] == ref[k.1];
    assert Named(index, keys) == Named(ref, keys);
  }

  /** Under a clock that never goes back, every answer of every run of the index is the
      answer of the map that never evicts. */
  lemma {:induction false} IndexRefinesMap(index: Sessions, ref: Sessions, clock: int, ops: seq<Op>)
    requires Tracks(index, ref, clock)
    requires ops != [] ==> clock <= Time(ops[0])
    requires forall i, j :: 0 <= i < j < |ops| ==> Time(ops[i]) <= Time(ops[j])
    ensures RunIndex(index, ops) == RunRef(ref, ops)
    decreases |ops|
  {
    if ops != [] {
      TracksStep(index, ref, clock, ops[0]);
      IndexRefinesMap(IndexAfter(index, ops[0]), RefAfter(ref, ops[0]), Time(ops[0]), ops[1..]);
    }
  }

  // ----- the two maps -----

  type Buckets = map<int, set<string>>

  /** Each id sits in exactly the bucket of its own deadline, and no bucket is empty. */
  ghost predicate Indexed(byId: Sessions, byExpiry: Buckets) {
    && (forall id :: id in byId ==> byId[id].sessionId == id)
    && (forall id :: id in byId ==> byId[id].expiresAt in byExpiry && id in byExpiry[byId[id].expiresAt])
    && (forall d :: d in byExpiry ==> byExpiry[d] != {})
    && (forall d, id :: d in byExpiry && id in byExpiry[d] ==> id in byId && byId[id].expiresAt == d)
  }

  /** `entry(d).or_default().insert(id)`. */
  function Hinted(b: Buckets, d: int, id: string): Buckets {
    b[d := (if d in b then b[d] else {}) + {id}]
  }

  /** `drop_expiry_hint`: forget the id, and the bucket with its last id. */
  function Dropped(b: Buckets, d: int, id: string): Buckets {
    if d !in b then b else if b[d] - {id} == {} then b - {d} else b[d := b[d] - {id}]
  }

  lemma NothingIndexed(m: Sessions, b: Buckets)
    requires Indexed(m, b) && b == map[]
    ensures m == map[]
  {
  }

  lemma DropIndexed(m: Sessions, b: Buckets, id: string)
    requires Indexed(m, b) && id in m
    ensures Indexed(m - {id}, Dropped(b, m[id].expiresAt, id))
  {
    var d := m[id].expiresAt;
    var b' := Dropped(b, d, id);
    forall k | k in m - {id} ensures m[k].expiresAt in b' && k in b'[m[k].expiresAt] {
      assert m[k].expiresAt == d ==> k in b[d] - {id};
    }
  }

  lemma HintIndexed(m: Sessions, b: Buckets, s: AttestedSession)
    requires Indexed(m, b) && s.sessionId !in m
    ensures Indexed(m[s.sessionId := s], Hinted(b, s.expiresAt, s.sessionId))
  {
    var b' := Hinted(b, s.expiresAt, s.sessionId);
    assert forall d :: d in b ==> d in b' && b[d] <= b'[d];
    assert s.sessionId in b'[s.expiresAt];
  }

  lemma RefreshIndexed(m: Sessions, b: Buckets, s: AttestedSession)
    requires Indexed(m, b) && s.sessionId in m && m[s.sessionId].expiresAt == s.expiresAt
    ensures Indexed(m[s.sessionId := s], b) && Hinted(b, s.expiresAt, s.sessionId) == b
  {
    assert b[s.expiresAt] + {s.sessionId} == b[s.expiresAt];
  }

  /** Moving a session to another deadline: drop the stale hint, add the new one. */
  lemma MoveIndexed(m: Sessions, b: Buckets, s: AttestedSession)
    requires Indexed(m, b) && s.sessionId in m
    ensures Indexed(m[s.sessionId := s],
        Hinted(Dropped(b, m[s.sessionId].expiresAt, s.sessionId), s.expiresAt, s.sessionId))
  {
    DropIndexed(m, b, s.sessionId);
    HintIndexed(m - {s.sessionId}, Dropped(b, m[s.sessionId].expiresAt, s.sessionId), s);
    assert (m - {s.sessionId})[s.sessionId := s] == m[s.sessionId := s];
  }

  lemma PopIndexed(m: Sessions, b: Buckets, d: int)
    requires Indexed(m, b) && d in b
    ensures Indexed(m - b[d], b - {d})
  {
    forall e, id | e in b - {d} && id in b[e] ensures id in m - b[d] {
      assert m[id].expiresAt == e;
    }
  }

  /** A bucket whose deadline has passed holds nothing alive. */
  lemma EvictionHarmless(m: Sessions, b: Buckets, d: int, now: int)
    requires Indexed(m, b) && d in b && d <= now
    ensures Live(m - b[d], now) == Live(m, now)
  {
  }

  lemma {:induction false} FirstKey(ds: set<int>)
    requires ds != {}
    ensures exists d :: d in ds && forall e :: e in ds ==> d <= e
  {
    var x := Pick(ds);
    if ds - {x} == {} {
      assert ds == {x};
      assert forall e :: e in ds ==> x <= e;
    } else {
      FirstKey(ds - {x});
      var d :| d in ds - {x} && forall e :: e in ds - {x} ==> d <= e;
      assert forall e :: e in ds ==> e == x || e in ds - {x};
      if x < d { assert forall e :: e in ds ==> x <= e; } else { assert forall e :: e in ds ==> d <= e; }
    }
  }

  class Index {
    var byId: Sessions
    var byExpiry: Buckets

    ghost predicate Valid()
      reads this
    {
      Indexed(byId, byExpiry)
    }

    constructor ()
      ensures Valid() && byId == map[]
    {
      byId, byExpiry := map[], map[];
    }

    /** Insert or refresh; a moved deadline drops the stale hint. */
    method Insert(s: AttestedSession)
      requires Valid()
      modifies this
      ensures Valid() && byId == old(byId)[s.sessionId := s]
    {
      var id := s.sessionId;
      if id in byId && byId[id].expiresAt != s.expiresAt {
        MoveIndexed(byId, byExpiry, s);
        byExpiry := Dropped(byExpiry, byId[id].expiresAt, id);
      } else if id in byId {
        RefreshIndexed(byId, byExpiry, s);
      } else {
        HintIndexed(byId, byExpiry, s);
      }
      byId := byId[id := s];
      byExpiry := Hinted(byExpiry, s.expiresAt, id);
    }

    /** `first_key_value`. */
    method FirstDeadline() returns (first: int)
      requires byExpiry != map[]
      ensures first in byExpiry && forall d :: d in byExpiry ==> first <= d
    {
      assert byExpiry.Keys != {};
      FirstKey(byExpiry.Keys);
      first :| first in byExpiry.Keys && forall d :: d in byExpiry.Keys ==> first <= d;
    }

    /** Pop every bucket whose deadline has passed, first deadline first. */
    method EvictExpired(now: U64)
      requires Valid()
      modifies this
      ensures Valid() && byId == Live(old(byId), now)
      ensures forall id :: id in byId <==> id in old(byId) && now < old(byId)[id].expiresAt
    {
      while byExpiry != map[]
        invariant Valid()
        invariant Live(byId, now) == Live(old(byId), now)
        decreases byExpiry.Keys
      {
        var first := FirstDeadline();
        if first > now {
          assert byId == Live(byId, now);
          return;
        }
        label popping:
        PopBucket(first);
        EvictionHarmless(old@popping(byId), old@popping(byExpiry), first, now);
      }
      NothingIndexed(byId, byExpiry);
    }

    /** Remove one bucket and its ids from both maps. */
    method PopBucket(deadline: int)
      requires Valid() && deadline in byExpiry
      modifies this
      ensures Valid() && byExpiry == old(byExpiry) - {deadline}
      ensures byId == old(byId) - old(byExpiry)[deadline]
    {
      PopIndexed(byId, byExpiry, deadline);
      var ids := byExpiry[deadline];
      byExpiry := byExpiry - {deadline};
      var rest := ids;
      while rest != {}
        invariant rest <= ids
        invariant byExpiry == old(byExpiry) - {deadline}
        invariant byId == old(byId) - (ids - rest)
      {
        var id :| id in rest;
        byId := byId - {id};
        rest := rest - {id};
      }
    }

    method PutAndEvict(s: AttestedSession, ts: U64)
      requires Valid()
      modifies this
      ensures Valid() && byId == IndexAfter(old(byId), Op.Put(s, ts))
    {
      Insert(s);
      EvictExpired(ts);
    }

    method Get(id: string, now: U64) returns (r: Option<AttestedSession>)
      requires Valid()
      modifies this
      ensures Valid() && byId == IndexAfter(old(byId), Fetch(id, now))
      ensures Fetched(r) == AnswerOn(old(byId), Fetch(id, now))
      ensures r.Some? <==> id in old(byId) && now < old(byId)[id].expiresAt
      ensures r.Some? ==> r.value == old(byId)[id]
    {
      if id !in byId { return None; }
      var s := byId[id];
      if now >= s.expiresAt {
        DropIndexed(byId, byExpiry, id);
        byId := byId - {id};
        byExpiry := Dropped(byExpiry, s.expiresAt, id);
        return None;
      }
      return Some(s);
    }

    /** The lapsed tail goes first, so a lapsed id is never brought back. */
    method RenewDeadline(id: string, expiresAt: U64, now: U64) returns (ok: bool)
      requires Valid()
      modifies this
      ensures Valid() && byId == IndexAfter(old(byId), Renew(id, expiresAt, now))
      ensures Renewed(ok) == AnswerOn(old(byId), Renew(id, expiresAt, now))
      ensures ok <==> id in old(byId) && now < old(byId)[id].expiresAt
      ensures ok ==> id in byId && byId[id] == old(byId)[id].(expiresAt := expiresAt)
    {
      EvictExpired(now);
      if id !in byId { return false; }
      var before := byId[id].expiresAt;
      if before == expiresAt {
        assert byId == Extended(byId, id, expiresAt);
        return true;
      }
      MoveIndexed(byId, byExpiry, byId[id].(expiresAt := expiresAt));
      byId := Extended(byId, id, expiresAt);
      byExpiry := Hinted(Dropped(byExpiry, before, id), expiresAt, id);
      return true;
    }

    method ListSessions(upstream: Option<string>, now: U64) returns (r: seq<AttestedSession>)
      ensures r == Listing(byId, upstream, now)
      ensures Valid() ==> IsListing(byId, upstream, now, r)
    {
      NewerFirstIsStrictOrder();
      var keys: seq<(int, string)>, rest := [], ListingKeys(byId, upstream, now);
      while rest != {}
        invariant rest <= ListingKeys(byId, upstream, now)
        invariant Sorted(NewerFirst, keys)
        invariant SameElements(keys, ListingKeys(byId, upstream, now) - rest)
      {
        var k :| k in rest;
        keys := Ordering.Insert(NewerFirst, k, keys);
        rest := rest - {k};
      }
      ArrangeUnique(NewerFirst, keys, ListingKeys(byId, upstream, now));
      r := Named(byId, keys);
      if Valid() { ListingIsNewestFirst(byId, upstream, now); }
    }
  }
}
