/**
 The append-only session log (`src/aggregator/session_store.rs`): replay on open, one
 append per sealed session, compaction that rewrites the log from the live index.  The
 file is a sequence of lines, rename is one atomic step, and a line that does not parse
 is `Malformed`.
 */
module SessionStore {
  import opened Basics
  import opened Keyset
  import opened Session
  import opened SessionIndex

  /** The replay check (`Session.Acceptable`): the id matches the contents and the evidence
      its digest.  Deadlines are no part of it. */
  type Check = AttestedSession -> bool

  ghost predicate IgnoresDeadline(accepts: Check) {
    forall s: AttestedSession, e: U64 :: accepts(s.(expiresAt := e)) == accepts(s)
  }

  /** The real check reads no deadline. */
  lemma RealCheckIgnoresDeadline(accepts: Check, hex: Hex, base64: string -> Option<seq<Byte>>)
    requires forall s :: accepts(s) <==> Acceptable(hex, base64, s)
    ensures IgnoresDeadline(accepts)
  {
    forall s: AttestedSession, e: U64 ensures accepts(s.(expiresAt := e)) == accepts(s) {
      assert ContentMaterial(s.(expiresAt := e)) == ContentMaterial(s);
    }
  }

  const SESSION := "session"

  /** One line of the log; `payload` is `None` when it does not deserialize to a session. */
  datatype Line = Malformed | Record(number: U64, ts: U64, recordType: string, payload: Option<AttestedSession>)

  /** The session a line contributes on replay, if any. */
  function Contribution(accepts: Check, line: Line): Option<AttestedSession> {
    if line.Record? && line.number < U64_MAX && line.recordType == SESSION && line.payload.Some?
        && accepts(line.payload.value)
    then line.payload else None
  }

  predicate Names(accepts: Check, line: Line, id: string) {
    Contribution(accepts, line).Some? && Contribution(accepts, line).value.sessionId == id
  }

  function Inserted(m: Sessions, s: Option<AttestedSession>): Sessions {
    if s.Some? then m[s.value.sessionId := s.value] else m
  }

  function Replay(accepts: Check, log: seq<Line>): Sessions {
    if log == [] then map[] else Inserted(Replay(accepts, log[..|log| - 1]), Contribution(accepts, log[|log| - 1]))
  }

  /** Line `i` names the id, and none after it does. */
  predicate IsLast(accepts: Check, log: seq<Line>, i: int, id: string)
    requires 0 <= i < |log|
  {
    Names(accepts, log[i], id) && forall j :: i < j < |log| ==> !Names(accepts, log[j], id)
  }

  lemma {:induction false} LatestWins(accepts: Check, log: seq<Line>, i: nat, id: string)
    requires i < |log| && IsLast(accepts, log, i, id)
    ensures id in Replay(accepts, log) && Some(Replay(accepts, log)[id]) == log[i].payload
    decreases |log|
  {
    var n := |log| - 1;
    if i < n {
      var rest := log[..n];
      assert forall j :: 0 <= j < n ==> rest[j] == log[j];
      LatestWins(accepts, rest, i, id);
      assert !Names(accepts, log[n], id);
    }
  }

  lemma {:induction false} ReplayNames(accepts: Check, log: seq<Line>, id: string)
    ensures id in Replay(accepts, log) <==> exists i :: 0 <= i < |log| && Names(accepts, log[i], id)
  {
    if log != [] {
      var n := |log| - 1;
      var rest := log[..n];
      ReplayNames(accepts, rest, id);
      assert forall i :: 0 <= i < n ==> rest[i] == log[i];
      if i :| 0 <= i < |rest| && Names(accepts, rest[i], id) {
        assert Names(accepts, log[i], id);
      }
    }
  }

  /** Reopening yields exactly the latest acceptable record of each id. */
  lemma ReplayIsLatest(accepts: Check, log: seq<Line>, id: string)
    ensures id in Replay(accepts, log) <==> exists i :: 0 <= i < |log| && Names(accepts, log[i], id)
    ensures forall i :: 0 <= i < |log| && IsLast(accepts, log, i, id) ==>
              id in Replay(accepts, log) && Some(Replay(accepts, log)[id]) == log[i].payload
  {
    ReplayNames(accepts, log, id);
    forall i | 0 <= i < |log| && IsLast(accepts, log, i, id)
      ensures id in Replay(accepts, log) && Some(Replay(accepts, log)[id]) == log[i].payload
    {
      LatestWins(accepts, log, i, id);
    }
  }

  lemma ReplayAppend(accepts: Check, log: seq<Line>, line: Line)
    ensures Replay(accepts, log + [line]) == Inserted(Replay(accepts, log), Contribution(accepts, line))
  {
    assert (log + [line])[..|log|] == log;
  }

  // ----- compaction -----

  /** A log written by compaction at `now`: one record per session of `m`, in any order,
      numbered from zero. */
  ghost predicate Rewrites(log: seq<Line>, m: Sessions, now: int) {
    && |log| == |m|
    && (forall i :: 0 <= i < |log| ==>
          && log[i].Record? && log[i].number == i && log[i].ts == now && log[i].recordType == "session"
          && log[i].payload.Some? && log[i].payload.value.sessionId in m
          && log[i].payload.value == m[log[i].payload.value.sessionId])
    && (forall id {:trigger Covers(log, id)} :: id in m ==> Covers(log, id))
  }

  ghost predicate Covers(log: seq<Line>, id: string) {
    exists i :: 0 <= i < |log| && log[i].Record? && log[i].payload.Some? && log[i].payload.value.sessionId == id
  }

  /** Sessions the store may hold: filed under their own id, and passing the check. */
  ghost predicate Sound(accepts: Check, m: Sessions) {
    forall id :: id in m ==> m[id].sessionId == id && accepts(m[id])
  }

  /** What replay holds for an id is the payload of some line of the log naming it. */
  lemma {:induction false} ReplayHolds(accepts: Check, log: seq<Line>, id: string)
    requires id in Replay(accepts, log)
    ensures exists i :: 0 <= i < |log| && Names(accepts, log[i], id) && log[i].payload == Some(Replay(accepts, log)[id])
  {
    var n := |log| - 1;
    if Names(accepts, log[n], id) {
      assert log[n].payload == Some(Replay(accepts, log)[id]);
    } else {
      ReplayHolds(accepts, log[..n], id);
      var i :| 0 <= i < n && Names(accepts, log[..n][i], id)
          && log[..n][i].payload == Some(Replay(accepts, log[..n])[id]);
      assert log[..n][i] == log[i];
    }
  }

  /** Nothing tampered with is replayed: with the real check, a session replayed from any log
      carries the id of its own material, and its evidence hashes to its digest. */
  lemma ReplayedIsGenuine(accepts: Check, hex: Hex, base64: string -> Option<seq<Byte>>, log: seq<Line>, id: string,
                          head: string, payload: string)
    requires id in Replay(accepts, log) && forall s :: accepts(s) <==> Acceptable(hex, base64, s)
    ensures Replay(accepts, log)[id].sessionId == id && Genuine(hex, base64, Replay(accepts, log)[id], head, payload)
  {
    ReplayHolds(accepts, log, id);
    AcceptedIsGenuine(hex, base64, Replay(accepts, log)[id], head, payload);
  }

  /** Right after compaction, replay gives back the live index, renewed deadlines included. */
  lemma RewriteReplays(accepts: Check, log: seq<Line>, m: Sessions, now: int)
    requires Sound(accepts, m) && Rewrites(log, m, now) && |m| <= U64_MAX
    ensures Replay(accepts, log) == m
  {
    var r := Replay(accepts, log);
    forall id | id in r ensures id in m && r[id] == m[id] {
      RewriteHolds(accepts, log, m, now, id);
    }
    forall id | id in m ensures id in r {
      RewriteNames(accepts, log, m, now, id);
      ReplayNames(accepts, log, id);
    }
  }

  lemma RewriteHolds(accepts: Check, log: seq<Line>, m: Sessions, now: int, id: string)
    requires Rewrites(log, m, now) && id in Replay(accepts, log)
    ensures id in m && Replay(accepts, log)[id] == m[id]
  {
    ReplayHolds(accepts, log, id);
    var i :| 0 <= i < |log| && Names(accepts, log[i], id) && log[i].payload == Some(Replay(accepts, log)[id]);
    assert log[i].payload.value.sessionId == id;
  }

  lemma RewriteNames(accepts: Check, log: seq<Line>, m: Sessions, now: int, id: string)
    requires Sound(accepts, m) && Rewrites(log, m, now) && |m| <= U64_MAX && id in m
    ensures exists i :: 0 <= i < |log| && Names(accepts, log[i], id)
  {
    assert Covers(log, id);
    var i :| 0 <= i < |log| && log[i].Record? && log[i].payload.Some? && log[i].payload.value.sessionId == id;
    assert Names(accepts, log[i], id);
  }

  // ----- runs with crashes -----

  /** `torn` is set while the file ends in half a line. */
  datatype State = State(log: seq<Line>, index: Sessions, clock: int, torn: bool)

  datatype Step =
    | PutSession(session: AttestedSession, ts: U64, number: U64)
    | FetchSession(id: string, now: U64)
    | RenewSession(id: string, expiresAt: U64, now: U64)
    | Compact(now: U64)
    | FailedCompact(now: U64)                                        // an I/O error before the rename
    | Restart                                                        // reopened, nothing in progress
    | CrashAfterAppend(session: AttestedSession, ts: U64, number: U64)   // the line reached the file, the index did not
    | CrashTornAppend                                                // half a line reached the file
    | CrashInCompact(now: U64, renamed: bool)                        // before or after the rename

  function StepTime(s: State, e: Step): int {
    match e
    case PutSession(_, ts, _) => ts
    case FetchSession(_, now) => now
    case RenewSession(_, _, now) => now
    case Compact(now) => now
    case FailedCompact(now) => now
    case Restart => s.clock
    case CrashAfterAppend(_, ts, _) => ts
    case CrashTornAppend => s.clock
    case CrashInCompact(now, _) => now
  }

  /** What the gateway does: it puts sealed sessions, renews only forward, numbers lines
      below the last sequence number, and its clock does not go back.  It compacts at startup
      before it serves, so after a torn line only compaction, and any number of crashes and
      restarts in between, comes next. */
  ghost predicate Allowed(accepts: Check, s: State, e: Step) {
    && s.clock <= StepTime(s, e)
    && (s.torn ==> e.Compact? || e.FailedCompact? || e.CrashInCompact? || e.Restart?)
    && (e.PutSession? || e.CrashAfterAppend? ==> accepts(e.session) && e.number < U64_MAX)
    && (e.RenewSession? && Alive(s.index, e.id, e.now) ==> s.index[e.id].expiresAt <= e.expiresAt)
    && |s.index| <= U64_MAX && |Replay(accepts, s.log)| <= U64_MAX
  }

  /** Only a rewritten file is whole again. */
  function TornAfter(s: State, e: Step): bool {
    match e
    case CrashTornAppend => true
    case Compact(_) => false
    case CrashInCompact(_, renamed) => s.torn && !renamed
    case _ => s.torn
  }

  ghost predicate Next(accepts: Check, s: State, e: Step, t: State) {
    && t.clock == StepTime(s, e)
    && t.torn == TornAfter(s, e)
    && match e
       case PutSession(x, ts, number) =>
         t.log == s.log + [Record(number, ts, SESSION, Some(x))] && t.index == IndexAfter(s.index, Put(x, ts))
       case FetchSession(id, now) => t.log == s.log && t.index == IndexAfter(s.index, Fetch(id, now))
       case RenewSession(id, expiresAt, now) => t.log == s.log
           && t.index == IndexAfter(s.index, Renew(id, expiresAt, now))
       case Compact(now) => t.index == Live(s.index, now) && Rewrites(t.log, t.index, now)
       case FailedCompact(now) => t.log == s.log && t.index == Live(s.index, now)
       case Restart => t.log == s.log && t.index == Replay(accepts, t.log)
       case CrashAfterAppend(x, ts, number) =>
         t.log == s.log + [Record(number, ts, SESSION, Some(x))] && t.index == Replay(accepts, t.log)
       case CrashTornAppend => t.log == s.log + [Malformed] && t.index == Replay(accepts, t.log)
       case CrashInCompact(now, renamed) =>
         (if renamed then Rewrites(t.log, Live(s.index, now), now) else t.log == s.log)
             && t.index == Replay(accepts, t.log)
  }

  /** `log` can rebuild `index` but for renewals: every indexed session is in it under the
      same contents and no later deadline, and nothing in it that is still alive is missing
      from the index. */
  ghost predicate Rebuilds(accepts: Check, log: Sessions, index: Sessions, clock: int) {
    && Sound(accepts, index) && Sound(accepts, log)
    && (forall id :: id in index ==> id in log && ShorterLife(log[id], index[id]))
    && (forall id :: Alive(log, id, clock) ==> id in index)
  }

  /** The same session with a deadline no later. */
  predicate ShorterLife(a: AttestedSession, b: AttestedSession) {
    a.expiresAt <= b.expiresAt && a == b.(expiresAt := a.expiresAt)
  }

  ghost predicate Recoverable(accepts: Check, s: State) {
    Rebuilds(accepts, Replay(accepts, s.log), s.index, s.clock)
  }

  lemma PutRebuilds(accepts: Check, log: Sessions, index: Sessions, clock: int, x: AttestedSession, ts: U64)
    requires Rebuilds(accepts, log, index, clock) && accepts(x) && clock <= ts
    ensures Rebuilds(accepts, log[x.sessionId := x], IndexAfter(index, Put(x, ts)), ts)
  {
  }

  lemma FetchRebuilds(accepts: Check, log: Sessions, index: Sessions, clock: int, id: string, now: U64)
    requires Rebuilds(accepts, log, index, clock) && clock <= now
    ensures Rebuilds(accepts, log, IndexAfter(index, Fetch(id, now)), now)
  {
  }

  lemma EvictRebuilds(accepts: Check, log: Sessions, index: Sessions, clock: int, now: U64)
    requires Rebuilds(accepts, log, index, clock) && clock <= now
    ensures Rebuilds(accepts, log, Live(index, now), now)
  {
  }

  lemma RenewRebuilds(accepts: Check, log: Sessions, index: Sessions, clock: int, id: string, expiresAt: U64, now: U64)
    requires IgnoresDeadline(accepts) && Rebuilds(accepts, log, index, clock) && clock <= now
    requires Alive(index, id, now) ==> index[id].expiresAt <= expiresAt
    ensures Rebuilds(accepts, log, IndexAfter(index, Renew(id, expiresAt, now)), now)
  {
    EvictRebuilds(accepts, log, index, clock, now);
    if Alive(index, id, now) {
      var x, y := index[id], index[id].(expiresAt := expiresAt);
      assert accepts(y) == accepts(x) && ShorterLife(log[id], y);
    }
  }

  lemma {:induction false} ReplaySound(accepts: Check, log: seq<Line>)
    ensures Sound(accepts, Replay(accepts, log))
  {
    if log != [] { ReplaySound(accepts, log[..|log| - 1]); }
  }

  /** A state whose index is exactly what its log replays to. */
  lemma FreshRecoverable(accepts: Check, t: State)
    requires t.index == Replay(accepts, t.log)
    ensures Recoverable(accepts, t)
  {
    ReplaySound(accepts, t.log);
  }

  lemma RecoverableStep(accepts: Check, s: State, e: Step, t: State)
    requires IgnoresDeadline(accepts)
    requires Recoverable(accepts, s) && Allowed(accepts, s, e) && Next(accepts, s, e, t)
    ensures Recoverable(accepts, t)
  {
    match e
    case PutSession(x, ts, number) =>
      ReplayAppend(accepts, s.log, Record(number, ts, SESSION, Some(x)));
      PutRebuilds(accepts, Replay(accepts, s.log), s.index, s.clock, x, ts);
    case FetchSession(id, now) => FetchRebuilds(accepts, Replay(accepts, s.log), s.index, s.clock, id, now);
    case RenewSession(id, expiresAt, now) =>
      RenewRebuilds(accepts, Replay(accepts, s.log), s.index, s.clock, id, expiresAt, now);
    case Compact(now) =>
      LiveSmaller(s.index, now);
      RewriteReplays(accepts, t.log, t.index, now);
      FreshRecoverable(accepts, t);
    case FailedCompact(now) => EvictRebuilds(accepts, Replay(accepts, s.log), s.index, s.clock, now);
    case Restart => FreshRecoverable(accepts, t);
    case CrashAfterAppend(_, _, _) => FreshRecoverable(accepts, t);
    case CrashTornAppend => FreshRecoverable(accepts, t);
    case CrashInCompact(_, _) => FreshRecoverable(accepts, t);
  }

  lemma LiveSmaller(m: Sessions, now: int)
    ensures |Live(m, now)| <= |m|
  {
    SubsetSize(Live(m, now).Keys, m.Keys);
  }

  lemma SubsetSize<T>(a: set<T>, b: set<T>)
    requires a <= b
    ensures |a| <= |b|
  {
    assert b == a + (b - a);
  }

  ghost predicate Run(accepts: Check, steps: seq<Step>, states: seq<State>) {
    && |states| == |steps| + 1
    && states[0] == State([], map[], 0, false)
    && forall i :: 0 <= i < |steps| ==>
         Allowed(accepts, states[i], steps[i]) && Next(accepts, states[i], steps[i], states[i + 1])
  }

  /** Over every run of puts, renewals, reads, compactions, restarts and crashes, the file
      can rebuild the index at every moment but for renewals not yet compacted. */
  lemma {:induction false} EveryStateRecoverable(accepts: Check, steps: seq<Step>, states: seq<State>, i: nat)
    requires IgnoresDeadline(accepts) && Run(accepts, steps, states) && i < |states|
    ensures Recoverable(accepts, states[i])
  {
    if i > 0 {
      EveryStateRecoverable(accepts, steps, states, i - 1);
      RecoverableStep(accepts, states[i - 1], steps[i - 1], states[i]);
    }
  }

  // ----- what a restart forgets -----

  /** The renewal is granted, and to a later deadline. */
  predicate Raises(index: Sessions, id: string, expiresAt: int, now: int) {
    Alive(index, id, now) && index[id].expiresAt < expiresAt
  }

  function PendingAfter(s: State, e: Step, id: string, pending: bool): bool {
    match e
    case PutSession(x, _, _) => x.sessionId != id && pending
    case FetchSession(_, _) => pending
    case FailedCompact(_) => pending
    case RenewSession(x, expiresAt, now) => pending || (x == id && Raises(s.index, id, expiresAt, now))
    case _ => false
  }

  /** Has `id` been renewed since it last reached the file?  A put of it, a compaction and
      every reopening settle the matter. */
  ghost predicate Pending(steps: seq<Step>, states: seq<State>, i: nat, id: string)
    requires |states| == |steps| + 1 && i < |states|
  {
    i > 0 && PendingAfter(states[i - 1], steps[i - 1], id, Pending(steps, states, i - 1, id))
  }

  function DeadlineAfter(e: Step, t: State, id: string, d: int): int {
    match e
    case PutSession(x, _, _) => if x.sessionId == id then x.expiresAt else d
    case FetchSession(_, _) => d
    case FailedCompact(_) => d
    case RenewSession(_, _, _) => d
    case _ => if id in t.index then t.index[id].expiresAt else 0
  }

  /** The deadline under which `id` last reached the file. */
  ghost function DeadlineOnFile(steps: seq<Step>, states: seq<State>, i: nat, id: string): int
    requires |states| == |steps| + 1 && i < |states|
  {
    if i == 0 then 0 else DeadlineAfter(steps[i - 1], states[i], id, DeadlineOnFile(steps, states, i - 1, id))
  }

  /** The log holds an indexed session under deadline `d`, earlier exactly when a renewal is pending. */
  ghost predicate OnFile(log: Sessions, index: Sessions, id: string, d: int, pending: bool) {
    id in index ==>
      && id in log && log[id] == index[id].(expiresAt := log[id].expiresAt) && log[id].expiresAt == d
      && d <= index[id].expiresAt && (pending <==> d < index[id].expiresAt)
  }

  lemma RenewOnFile(log: Sessions, index: Sessions, id: string, d: int, pending: bool, x: string, expiresAt: U64,
      now: U64)
    requires OnFile(log, index, id, d, pending)
    requires Alive(index, x, now) ==> index[x].expiresAt <= expiresAt
    ensures OnFile(log, IndexAfter(index, Renew(x, expiresAt, now)), id, d, pending
        || (x == id && Raises(index, id, expiresAt, now)))
  {
  }

  lemma PutOnFile(log: Sessions, index: Sessions, id: string, d: int, pending: bool, x: AttestedSession, ts: U64)
    requires OnFile(log, index, id, d, pending)
    ensures OnFile(log[x.sessionId := x], IndexAfter(index, Put(x, ts)), id, if x.sessionId == id then x.expiresAt
        else d,
                   x.sessionId != id && pending)
  {
  }

  lemma EvictOnFile(log: Sessions, index: Sessions, id: string, d: int, pending: bool, now: int)
    requires OnFile(log, index, id, d, pending)
    ensures OnFile(log, Live(index, now), id, d, pending)
  {
  }

  lemma FetchOnFile(log: Sessions, index: Sessions, id: string, d: int, pending: bool, x: string, now: U64)
    requires OnFile(log, index, id, d, pending)
    ensures OnFile(log, IndexAfter(index, Fetch(x, now)), id, d, pending)
  {
  }

  predicate Settles(e: Step) {
    e.Compact? || e.Restart? || e.CrashAfterAppend? || e.CrashTornAppend? || e.CrashInCompact?
  }

  /** Steps after which the index is what the file replays to. */
  lemma SettledStep(accepts: Check, s: State, e: Step, t: State)
    requires Sound(accepts, s.index) && Allowed(accepts, s, e) && Next(accepts, s, e, t) && Settles(e)
    ensures t.index == Replay(accepts, t.log)
  {
    if e.Compact? {
      LiveSmaller(s.index, e.now);
      RewriteReplays(accepts, t.log, t.index, e.now);
    }
  }

  lemma SettledOnFile(m: Sessions, id: string)
    ensures OnFile(m, m, id, if id in m then m[id].expiresAt else 0, false)
  {
  }

  lemma FileStep(accepts: Check, s: State, e: Step, t: State, id: string, d: int, pending: bool)
    requires Sound(accepts, s.index) && Allowed(accepts, s, e) && Next(accepts, s, e, t)
    requires OnFile(Replay(accepts, s.log), s.index, id, d, pending)
    ensures OnFile(Replay(accepts, t.log), t.index, id, DeadlineAfter(e, t, id, d), PendingAfter(s, e, id, pending))
  {
    if Settles(e) {
      SettledStep(accepts, s, e, t);
      SettledOnFile(t.index, id);
    } else {
      OpenStep(accepts, s, e, t, id, d, pending);
    }
  }

  lemma OpenStep(accepts: Check, s: State, e: Step, t: State, id: string, d: int, pending: bool)
    requires Allowed(accepts, s, e) && Next(accepts, s, e, t) && !Settles(e)
    requires OnFile(Replay(accepts, s.log), s.index, id, d, pending)
    ensures OnFile(Replay(accepts, t.log), t.index, id, DeadlineAfter(e, t, id, d), PendingAfter(s, e, id, pending))
  {
    var log := Replay(accepts, s.log);
    match e
    case PutSession(x, ts, number) =>
      ReplayAppend(accepts, s.log, Record(number, ts, SESSION, Some(x)));
      PutOnFile(log, s.index, id, d, pending, x, ts);
    case FetchSession(x, now) => FetchOnFile(log, s.index, id, d, pending, x, now);
    case FailedCompact(now) => EvictOnFile(log, s.index, id, d, pending, now);
    case RenewSession(x, expiresAt, now) => RenewOnFile(log, s.index, id, d, pending, x, expiresAt, now);
  }

  lemma {:induction false} FileHolds(accepts: Check, steps: seq<Step>, states: seq<State>, i: nat, id: string)
    requires IgnoresDeadline(accepts) && Run(accepts, steps, states) && i < |states|
    ensures OnFile(Replay(accepts, states[i].log), states[i].index, id, DeadlineOnFile(steps, states, i, id),
        Pending(steps, states, i, id))
  {
    if i > 0 {
      FileHolds(accepts, steps, states, i - 1, id);
      EveryStateRecoverable(accepts, steps, states, i - 1);
      FileStep(accepts, states[i - 1], steps[i - 1], states[i], id,
               DeadlineOnFile(steps, states, i - 1, id), Pending(steps, states, i - 1, id));
    }
  }

  /** Reopening gives back a session exactly as the index has it if and only if it has not
      been renewed since it last reached the file. */
  lemma RestartKeepsExactly(accepts: Check, steps: seq<Step>, states: seq<State>, i: nat, id: string)
    requires IgnoresDeadline(accepts) && Run(accepts, steps, states) && i < |states| && id in states[i].index
    ensures var log := Replay(accepts, states[i].log);
      id in log && log[id] == states[i].index[id] <==> !Pending(steps, states, i, id)
  {
    FileHolds(accepts, steps, states, i, id);
  }

  /** What a client can tell after a restart at `now`: a session it finds was there before
      with the same contents, and one that was there is found exactly when the deadline it
      last reached the file under has not passed. */
  lemma RestartLosesOnlyRenewals(accepts: Check, steps: seq<Step>, states: seq<State>, i: nat, id: string, now: int)
    requires IgnoresDeadline(accepts) && Run(accepts, steps, states) && i < |states| && states[i].clock <= now
    ensures var before, after := states[i].index, Replay(accepts, states[i].log);
      && (Alive(after, id, now) ==>
           Alive(before, id, now) && after[id] == before[id].(expiresAt := after[id].expiresAt))
      && (Alive(before, id, now) ==> (Alive(after, id, now) <==> now < DeadlineOnFile(steps, states, i, id)))
      && (Alive(before, id, now) && !Alive(after, id, now) ==> Pending(steps, states, i, id))
  {
    EveryStateRecoverable(accepts, steps, states, i);
    FileHolds(accepts, steps, states, i, id);
  }

  /** A run that loses a renewal: put until 10, renewed until 20, restarted. */
  function LossySteps(x: AttestedSession): seq<Step> {
    [Step.PutSession(x.(expiresAt := 10), 1, 0), RenewSession(x.sessionId, 20, 5), Restart]
  }

  function LossyStates(x: AttestedSession): seq<State> {
    var id, s := x.sessionId, x.(expiresAt := 10);
    var log := [Record(0, 1, SESSION, Some(s))];
    [State([], map[], 0, false), State(log, map[id := s], 1, false),
     State(log, map[id := x.(expiresAt := 20)], 5, false), State(log, map[id := s], 5, false)]
  }

  lemma LossyPut(accepts: Check, x: AttestedSession)
    requires IgnoresDeadline(accepts) && accepts(x)
    ensures Allowed(accepts, LossyStates(x)[0], LossySteps(x)[0])
    ensures Next(accepts, LossyStates(x)[0], LossySteps(x)[0], LossyStates(x)[1])
  {
    var s := x.(expiresAt := 10);
    assert accepts(s) == accepts(x);
    assert IndexAfter(map[], Put(s, 1)) == map[x.sessionId := s];
  }

  lemma LossyRenew(accepts: Check, x: AttestedSession)
    requires IgnoresDeadline(accepts) && accepts(x)
    ensures Allowed(accepts, LossyStates(x)[1], LossySteps(x)[1])
    ensures Next(accepts, LossyStates(x)[1], LossySteps(x)[1], LossyStates(x)[2])
  {
    var s := x.(expiresAt := 10);
    assert accepts(s) == accepts(x);
    OneLine(accepts, Record(0, 1, SESSION, Some(s)), s);
    assert IndexAfter(map[x.sessionId := s], Renew(x.sessionId, 20, 5)) == map[x.sessionId := x.(expiresAt := 20)];
  }

  lemma LossyRestart(accepts: Check, x: AttestedSession)
    requires IgnoresDeadline(accepts) && accepts(x)
    ensures Allowed(accepts, LossyStates(x)[2], LossySteps(x)[2])
    ensures Next(accepts, LossyStates(x)[2], LossySteps(x)[2], LossyStates(x)[3])
  {
    var s := x.(expiresAt := 10);
    assert accepts(s) == accepts(x);
    OneLine(accepts, Record(0, 1, SESSION, Some(s)), s);
  }

  lemma LossyRun(accepts: Check, x: AttestedSession)
    requires IgnoresDeadline(accepts) && accepts(x)
    ensures Run(accepts, LossySteps(x), LossyStates(x))
  {
    LossyPut(accepts, x);
    LossyRenew(accepts, x);
    LossyRestart(accepts, x);
    var steps, states := LossySteps(x), LossyStates(x);
    forall i | 0 <= i < |steps|
        ensures Allowed(accepts, states[i], steps[i]) && Next(accepts, states[i], steps[i], states[i + 1]) {
      assert i == 0 || i == 1 || i == 2;
    }
  }

  lemma LossyPending(x: AttestedSession)
    ensures Pending(LossySteps(x), LossyStates(x), 2, x.sessionId)
  {
    assert Raises(LossyStates(x)[1].index, x.sessionId, 20, 5);
  }

  /** At 15 the session was alive before the restart and is gone after it. */
  lemma RenewalLostByRestart(accepts: Check, x: AttestedSession)
    requires IgnoresDeadline(accepts) && accepts(x)
    ensures Run(accepts, LossySteps(x), LossyStates(x)) && LossySteps(x)[2] == Restart
    ensures Pending(LossySteps(x), LossyStates(x), 2, x.sessionId)
    ensures Alive(LossyStates(x)[2].index, x.sessionId, 15) && !Alive(LossyStates(x)[3].index, x.sessionId, 15)
  {
    LossyRun(accepts, x);
    LossyPending(x);
  }

  lemma OneLine(accepts: Check, line: Line, s: AttestedSession)
    requires Contribution(accepts, line) == Some(s)
    ensures Replay(accepts, []) == map[] && Replay(accepts, [line]) == map[s.sessionId := s]
  {
    ReplayAppend(accepts, [], line);
    assert [] + [line] == [line];
  }

  // ----- the store -----

  datatype StoreError = SequenceOverflow | Io

  class JsonlStore {
    const accepts: Check
    const index: Index
    var log: seq<Line>
    var nextSeq: U64

    ghost predicate Valid()
      reads this, index
    {
      && index.Valid()
      && forall i :: 0 <= i < |log| && log[i].Record? && log[i].number < U64_MAX ==> log[i].number < nextSeq
    }

    /** `open`: replay the file; lines that do not parse or do not pass the check are skipped. */
    constructor Open(accepts: Check, file: seq<Line>)
      ensures Valid() && fresh(index) && this.accepts == accepts && log == file
      ensures index.byId == Replay(accepts, file)
    {
      this.accepts, log, nextSeq := accepts, file, 0;
      index := new Index();
      new;
      for i := 0 to |file|
        invariant index.Valid() && fresh(index) && log == file
        invariant index.byId == Replay(accepts, file[..i])
        invariant forall j :: 0 <= j < i && file[j].Record? && file[j].number < U64_MAX ==> file[j].number < nextSeq
      {
        assert file[..i + 1] == file[..i] + [file[i]];
        ReplayAppend(accepts, file[..i], file[i]);
        Ingest(file[i]);
      }
      assert file[..|file|] == file;
    }

    /** One line of the file: its number counts even when its session is skipped. */
    method Ingest(line: Line)
      requires index.Valid()
      modifies this`nextSeq, index
      ensures index.Valid() && index.byId == Inserted(old(index.byId), Contribution(accepts, line))
      ensures old(nextSeq) <= nextSeq && (line.Record? && line.number < U64_MAX ==> line.number < nextSeq)
    {
      if line.Malformed? || line.number == U64_MAX { return; }
      if nextSeq < line.number + 1 { nextSeq := line.number + 1; }
      var s := Contribution(accepts, line);
      if s.Some? { index.Insert(s.value); }
    }

    /** `put_session`: the line is appended and the index updated together, under a
        sequence number above every usable one in the log.  When sequence numbers have run
        out or the write fails, nothing changes. */
    method PutSession(s: AttestedSession, ts: U64, writes: bool, ghost clock: int, ghost torn: bool)
        returns (r: Result<U64, StoreError>)
      requires Valid()
      modifies this, index
      ensures Valid()
      ensures r.Err? <==> old(nextSeq) == U64_MAX || !writes
      ensures r.Err? ==> log == old(log) && nextSeq == old(nextSeq) && index.byId == old(index.byId)
      ensures r.Ok? ==> Next(accepts, State(old(log), old(index.byId), clock, torn), Step.PutSession(s, ts, r.value),
                             State(log, index.byId, ts, torn))
      ensures r.Ok? ==> forall i :: 0 <= i < |old(log)| && old(log)[i].Record? && old(log)[i].number < U64_MAX ==>
          old(log)[i].number < r.value
    {
      if nextSeq == U64_MAX { return Err(SequenceOverflow); }
      if !writes { return Err(Io); }
      var number := nextSeq;
      log := log + [Record(number, ts, SESSION, Some(s))];
      nextSeq := number + 1;
      index.PutAndEvict(s, ts);
      return Ok(number);
    }

    /** `compact`: write the live index to a fresh file, then swap it in.  When writing or
        renaming fails, the lapsed sessions are gone from the index and the log is as it was. */
    method Compact(now: U64, writes: bool, ghost clock: int, ghost torn: bool) returns (kept: Result<nat, StoreError>)
      requires Valid() && |index.byId| <= U64_MAX
      modifies this, index
      ensures Valid() && (kept.Ok? <==> writes) && (kept.Ok? ==> kept.value == |log|)
      ensures kept.Err? ==> nextSeq == old(nextSeq)
      ensures Next(accepts, State(old(log), old(index.byId), clock, torn),
                   if writes then Step.Compact(now)
                       else FailedCompact(now), State(log, index.byId, now, torn && !writes))
    {
      LiveSmaller(index.byId, now);
      index.EvictExpired(now);
      if !writes { return Err(Io); }
      var tmp := WriteAll(index.byId, now);
      log := tmp;
      nextSeq := |tmp|;
      return Ok(|tmp|);
    }
  }

  /** One record per session, in whatever order the map yields them. */
  method WriteAll(m: Sessions, now: U64) returns (out: seq<Line>)
    requires |m| <= U64_MAX && forall id :: id in m ==> m[id].sessionId == id
    ensures Rewrites(out, m, now)
  {
    out := [];
    var ids: seq<string>, rest := [], m.Keys;
    while rest != {}
      invariant rest <= m.Keys && |out| == |ids| && |out| + |rest| == |m|
      invariant forall i :: 0 <= i < |out| ==> ids[i] in m && out[i] == Record(i, now, SESSION, Some(m[ids[i]]))
      invariant forall id :: id in m ==> id in rest || id in ids
    {
      var id :| id in rest;
      out := out + [Record(|out|, now, SESSION, Some(m[id]))];
      ids := ids + [id];
      rest := rest - {id};
    }
    AllWritten(m, ids, out, now);
  }

  lemma AllWritten(m: Sessions, ids: seq<string>, out: seq<Line>, now: U64)
    requires |m| <= U64_MAX && forall id :: id in m ==> m[id].sessionId == id
    requires |out| == |ids| == |m| && forall id :: id in m ==> id in ids
    requires forall i :: 0 <= i < |out| ==> ids[i] in m && out[i] == Record(i, now, SESSION, Some(m[ids[i]]))
    ensures Rewrites(out, m, now)
  {
    forall id | id in m ensures Covers(out, id) {
      var i :| 0 <= i < |ids| && ids[i] == id;
      assert out[i].payload.value.sessionId == id;
    }
  }
}
