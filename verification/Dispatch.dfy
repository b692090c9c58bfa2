/**
 The router at work (`src/middleware/router.rs`): the mutable router state, the guard of one
 request in flight, and how an idle router spreads its requests.
 */
module Dispatch {
  import opened Basics
  import opened Ordering
  import opened Router

  /** The state a selection reads: default entries made for every route. */
  function Entered(s: State, model: string, routes: seq<Route>): State {
    State(WithStats(s.stats, routes), WithHistory(s.history, model, routes), s.metrics)
  }

  /** The extremes are unique, so the loop's extremes decide the balance. */
  lemma ExtremesDecide(s: State, routes: seq<Route>, c: Config, tier: Tier, min: nat, max: nat)
    requires Extremes(s, routes, c, tier, min, max)
    ensures Imbalanced(s, routes, c, tier) <==> TooFarAbove(max, LeastLoad(min), c)
  {
    if lo: nat, hi: nat :| Extremes(s, routes, c, tier, lo, hi) && TooFarAbove(hi, LeastLoad(lo), c) {
      assert lo == min && hi == max;
    }
  }

  /** The load range over all routes, the least load reset when it is the `usize` maximum. */
  method LoadRange(s: State, routes: seq<Route>, c: Config, tier: Tier) returns (min: nat, max: nat)
    requires routes != []
    ensures exists least: nat :: Extremes(s, routes, c, tier, least, max) && min == LeastLoad(least)
  {
    var loads := seq(|routes|, i requires 0 <= i < |routes| => Load(s, routes[i], c, tier));
    min, max := Range(loads);
    ghost var least := min;
    ghost var i :| 0 <= i < |loads| && loads[i] == least;
    ghost var j :| 0 <= j < |loads| && loads[j] == max;
    assert Load(s, routes[i], c, tier) == least && Load(s, routes[j], c, tier) == max;
    forall k | 0 <= k < |routes| ensures least <= Load(s, routes[k], c, tier) <= max { assert loads[k] in loads; }
    assert Extremes(s, routes, c, tier, least, max);
    min := LeastLoad(min);
  }

  method Range(loads: seq<nat>) returns (min: nat, max: nat)
    requires loads != []
    ensures min in loads && max in loads && forall x :: x in loads ==> min <= x <= max
  {
    min, max := loads[0], loads[0];
    for i := 1 to |loads|
      invariant min in loads && max in loads
      invariant forall j :: 0 <= j < i ==> min <= loads[j] <= max
    {
      if loads[i] < min { min := loads[i]; }
      if loads[i] > max { max := loads[i]; }
    }
  }

  /** A route kept over a challenger, or replaced by it, dominates whatever the old one did. */
  lemma DominatesTransitive(s: State, model: string, text: string, c: Config, tier: Tier, x: Route, y: Route, z: Route)
    requires Dominates(s, model, text, c, tier, x, y) && Dominates(s, model, text, c, tier, y, z)
    ensures Dominates(s, model, text, c, tier, x, z)
  {
    var a, b, d := Key(s, x, c, tier), Key(s, y, c, tier), Key(s, z, c, tier);
    if LexLess(d, a) && !LexLess(b, a) {
      LexTotal(a, b);
      if LexLess(a, b) { LexTransitive(d, a, b); }
    }
  }

  lemma DominatesTotal(s: State, model: string, text: string, c: Config, tier: Tier, x: Route, y: Route)
    ensures Dominates(s, model, text, c, tier, x, x)
    ensures !Dominates(s, model, text, c, tier, x, y) ==> Dominates(s, model, text, c, tier, y, x)
  {
    LexIrreflexive(Key(s, x, c, tier));
    LexAsymmetric(Key(s, x, c, tier), Key(s, y, c, tier));
  }

  /** The scan for the route that has seen most of the text. */
  method FindBestCached(s: State, model: string, text: string, routes: seq<Route>, c: Config, tier: Tier)
      returns (best: Route)
    requires routes != []
    ensures BestCached(s, model, text, routes, c, tier, best)
  {
    best := routes[0];
    DominatesTotal(s, model, text, c, tier, best, best);
    for i := 1 to |routes|
      invariant best in routes
      invariant forall j :: 0 <= j < i ==> Dominates(s, model, text, c, tier, best, routes[j])
    {
      var r, was := routes[i], best;
      DominatesTotal(s, model, text, c, tier, was, r);
      DominatesTotal(s, model, text, c, tier, r, r);
      if Rate(s, model, text, r) > Rate(s, model, text, best)
         || (Rate(s, model, text, r) == Rate(s, model, text, best)
             && LexLess(Key(s, r, c, tier), Key(s, best, c, tier))) {
        best := r;
        forall j | 0 <= j < i ensures Dominates(s, model, text, c, tier, best, routes[j]) {
          DominatesTransitive(s, model, text, c, tier, r, was, routes[j]);
        }
      }
    }
  }

  /** `select_cache_aware`. */
  method SelectCacheAware(s: State, model: string, text: string, routes: seq<Route>, c: Config, tier: Tier)
      returns (sel: Selection)
    requires routes != []
    ensures CacheAware(s, model, text, routes, c, tier, sel) && sel.runningAtSelect == Load(s, sel.route, c, tier)
  {
    var best := FindBestCached(s, model, text, routes, c, tier);
    var least := Least(s, routes, c, tier);
    var rate := Rate(s, model, text, best);
    if rate > c.cacheThreshold && Acceptable(s, best, least, c, tier) {
      sel := Selection(best, Cache, rate, Load(s, best, c, tier));
    } else {
      sel := Selection(least, LeastRunning, rate, Load(s, least, c, tier));
    }
  }

  /** The choice among two or more routes. */
  method SelectAmong(s: State, model: string, text: string, routes: seq<Route>, c: Config, tier: Tier)
      returns (sel: Selection)
    requires |routes| > 1
    ensures Chosen(s, model, text, routes, c, tier, sel)
  {
    var min, max := LoadRange(s, routes, c, tier);
    ghost var least: nat :| Extremes(s, routes, c, tier, least, max) && min == LeastLoad(least);
    var imbalanced := TooFarAbove(max, min, c);
    ExtremesDecide(s, routes, c, tier, least, max);
    if imbalanced || text == "" {
      var route := Least(s, routes, c, tier);
      sel := Selection(route, if imbalanced then LoadImbalance else NoText, 0.0, Load(s, route, c, tier));
    } else {
      sel := SelectCacheAware(s, model, text, routes, c, tier);
    }
  }

  class RouterState {
    var stats: StatsMap
    var history: History
    var metrics: map<string, Metrics>

    constructor ()
      ensures View() == State(map[], map[], map[])
    {
      stats, history, metrics := map[], map[], map[];
    }

    function View(): State
      reads this
    {
      State(stats, history, metrics)
    }

    method MarkStarted(sel: Selection)
      modifies `stats
      ensures stats == Started(old(stats), sel.route.id, sel.reason)
    {
      var st := StatsOf(stats, sel.route.id);
      st := st.(running := st.running + 1, processed := st.processed + 1);
      match sel.reason {
        case Cache => st := st.(byCache := st.byCache + 1);
        case Single => st := st.(byOrder := st.byOrder + 1);
        case _ => st := st.(byLoad := st.byLoad + 1);
      }
      stats := stats[sel.route.id := st];
    }

    method DecrementRunning(id: string)
      modifies `stats
      ensures stats == Decremented(old(stats), id)
    {
      if id in stats {
        var st := stats[id];
        stats := stats[id := st.(running := if st.running == 0 then 0 else st.running - 1)];
      }
    }

    method RecordHistory(model: string, id: string, text: string, max: nat)
      modifies `history
      ensures history == Recorded(old(history), model, id, text, max)
    {
      if text == "" || max == 0 { return; }
      var perRoute := if model in history then history[model] else map[];
      var samples := (if id in perRoute then perRoute[id] else []) + [Take(text, MAX_TEXT)];
      if |samples| > max {
        var overflow := |samples| - max;
        samples := samples[overflow..];
      }
      history := history[model := perRoute[id := samples]];
    }

    /** Default entries for every route. */
    method AddEntries(model: string, routes: seq<Route>)
      modifies `stats, `history
      ensures View() == Entered(old(View()), model, routes)
    {
      for i := 0 to |routes|
        invariant metrics == old(metrics)
        invariant WithStats(stats, routes[i..]) == WithStats(old(stats), routes)
        invariant WithHistory(history, model, routes[i..]) == WithHistory(old(history), model, routes)
      {
        assert routes[i..][0] == routes[i] && routes[i..][1..] == routes[i + 1..];
        var id := routes[i].id;
        if id !in stats { stats := stats[id := DEFAULT]; }
        var perRoute := if model in history then history[model] else map[];
        history := history[model := if id in perRoute then perRoute else perRoute[id := []]];
      }
    }

    /** `select`: nothing among no routes; otherwise a choice among the entered state, recorded. */
    method Select(model: string, text: string, routes: seq<Route>, c: Config, tier: Tier)
        returns (sel: Option<Selection>)
      modifies `stats, `history
      ensures routes == [] ==> sel == None && View() == old(View())
      ensures routes != [] ==>
        && sel.Some? && Chosen(Entered(old(View()), model, routes), model, text, routes, c, tier, sel.value)
        && stats == WithStats(old(stats), routes)
        && history == Recorded(WithHistory(old(history), model, routes), model, sel.value.route.id, text, c.maxHistory)
      ensures routes != [] ==> forall notes :: old(history) == HistoryAfter(map[], notes, c.maxHistory) ==>
                history == HistoryAfter(map[], notes + [Note(model, routes, sel.value.route.id, text)], c.maxHistory)
    {
      if routes == [] { return None; }
      AddEntries(model, routes);
      var s := View();
      var choice: Selection;
      if |routes| == 1 {
        choice := Selection(routes[0], Single, 0.0, StatsOf(stats, routes[0].id).running);
      } else {
        choice := SelectAmong(s, model, text, routes, c, tier);
      }
      RecordHistory(model, choice.route.id, text, c.maxHistory);
      ghost var note := Note(model, routes, choice.route.id, text);
      forall notes | old(history) == HistoryAfter(map[], notes, c.maxHistory)
        ensures history == HistoryAfter(map[], notes + [note], c.maxHistory)
      {
        assert (notes + [note])[..|notes|] == notes;
      }
      return Some(choice);
    }
  }

  /** The guard of one request in flight; dropping it ends the request. */
  class RouteInFlight {
    const state: RouterState
    var routeId: Option<string>

    constructor (router: RouterState, sel: Selection)
      modifies router`stats
      ensures state == router && routeId == Some(sel.route.id)
      ensures router.stats == Started(old(router.stats), sel.route.id, sel.reason)
    {
      state := router;
      routeId := Some(sel.route.id);
      new;
      router.MarkStarted(sel);
    }

    /** A guard that still aims somewhere moves its count; a dropped one would only add. */
    method Retarget(id: string)
      modifies `routeId, state`stats
      ensures routeId == Some(id)
      ensures state.stats == match old(routeId) case Some(from) => Retargeted(old(state.stats), from, id)
                                                case None => Incremented(old(state.stats), id)
    {
      if routeId == Some(id) { return; }
      var previous := routeId;
      routeId := Some(id);
      if previous.Some? { state.DecrementRunning(previous.value); }
      var st := StatsOf(state.stats, id);
      state.stats := state.stats[id := st.(running := st.running + 1)];
    }

    method Drop()
      modifies `routeId, state`stats
      ensures routeId == None
      ensures state.stats == match old(routeId) case Some(at) => Decremented(old(state.stats), at)
                                                case None => old(state.stats)
    {
      if routeId.Some? {
        var at := routeId.value;
        routeId := None;
        state.DecrementRunning(at);
      }
    }
  }

  // ----- idle balance -----

  /** One request: what it asks, and the routes it fails over to before it ends. */
  datatype Request = Request(model: string, text: string, tier: Tier, hops: seq<string>)

  /** Failovers of the only request in flight, then its end. */
  function Finished(stats: StatsMap, at: string, hops: seq<string>): StatsMap
    decreases |hops|
  {
    if hops == [] then Decremented(stats, at) else Finished(Retargeted(stats, at, hops[0]), hops[0], hops[1..])
  }

  /** The router after a request it chose `sel` for has come and gone. */
  function Served(s: State, q: Request, routes: seq<Route>, c: Config, sel: Selection): State {
    var e := Entered(s, q.model, routes);
    State(Finished(Started(e.stats, sel.route.id, sel.reason), sel.route.id, q.hops),
          Recorded(e.history, q.model, sel.route.id, q.text, c.maxHistory), s.metrics)
  }

  ghost predicate Serves(s: State, q: Request, routes: seq<Route>, c: Config, t: State)
    requires routes != []
  {
    exists sel :: Chosen(Entered(s, q.model, routes), q.model, q.text, routes, c, q.tier, sel)
        && t == Served(s, q, routes, c, sel)
  }

  /** A run in which each request ends before the next begins. */
  ghost predicate SequentialRun(states: seq<State>, requests: seq<Request>, routes: seq<Route>, c: Config)
    requires routes != []
  {
    && |states| == |requests| + 1
    && forall i :: 0 <= i < |requests| ==> Serves(states[i], requests[i], routes, c, states[i + 1])
  }

  /** Nothing runs, no metrics, and no route of the list is two requests ahead of another. */
  ghost predicate Even(s: State, routes: seq<Route>) {
    && s.metrics == map[]
    && (forall id: string :: StatsOf(s.stats, id).running == 0)
    && (forall i, j :: 0 <= i < |routes| && 0 <= j < |routes| ==>
          StatsOf(s.stats, routes[i].id).processed <= StatsOf(s.stats, routes[j].id).processed + 1)
  }

  /** Whoever holds the one guard, `processed` stays put and `running` settles back to zero. */
  lemma {:induction false} Settles(stats: StatsMap, at: string, hops: seq<string>, id: string)
    requires forall x: string :: StatsOf(stats, x).running == if x == at then 1 else 0
    ensures StatsOf(Finished(stats, at, hops), id).running == 0
    ensures StatsOf(Finished(stats, at, hops), id).processed == StatsOf(stats, id).processed
    decreases |hops|
  {
    assert StatsOf(stats, at).running == 1;
    assert StatsOf(stats, id).running == if id == at then 1 else 0;
    if hops != [] {
      var next := Retargeted(stats, at, hops[0]);
      forall x: string ensures StatsOf(next, x).running == if x == hops[0] then 1 else 0 {
        assert StatsOf(stats, x).running == if x == at then 1 else 0;
      }
      Settles(next, hops[0], hops[1..], id);
    }
  }

  /** Keys that agree up to a position are ordered by it. */
  lemma {:induction false} LexAt(a: seq<int>, b: seq<int>, k: nat)
    requires k < |a| && k < |b| && a[..k] == b[..k] && a[k] < b[k]
    ensures LexLess(a, b)
  {
    if k > 0 {
      assert a[..k][0] == b[..k][0];
      assert a[1..][..k - 1] == a[..k][1..] && b[1..][..k - 1] == b[..k][1..];
      LexAt(a[1..], b[1..], k - 1);
    }
  }

  /** With no metrics and nothing running, the least key has the fewest requests behind it. */
  lemma LeastHasFewest(s: State, routes: seq<Route>, c: Config, tier: Tier, r: Route)
    requires r in routes && s.metrics == map[] && forall id: string :: StatsOf(s.stats, id).running == 0
    ensures StatsOf(s.stats, Least(s, routes, c, tier).id).processed <= StatsOf(s.stats, r.id).processed
  {
    var least := Least(s, routes, c, tier);
    var a, b := Key(s, r, c, tier), Key(s, least, c, tier);
    assert StatsOf(s.stats, r.id).running == 0 && StatsOf(s.stats, least.id).running == 0;
    assert a[..5] == [0, 1, 0, 0, 0] == b[..5];
    LeastIsLeast(s, routes, c, tier, r);
    if a[5] < b[5] { LexAt(a, b, 5); }
  }

  /** When no share of a text can beat the threshold, the least key is always chosen. */
  lemma ChoosesLeast(s: State, q: Request, routes: seq<Route>, c: Config, sel: Selection)
    requires routes != [] && c.cacheThreshold >= 1.0 && Chosen(s, q.model, q.text, routes, c, q.tier, sel)
    ensures sel.route == Least(s, routes, c, q.tier)
  {
  }

  /** A served request leaves nothing running and counts once, for the route chosen. */
  lemma ServedOnce(s: State, q: Request, routes: seq<Route>, c: Config, sel: Selection, id: string)
    requires forall x: string :: StatsOf(s.stats, x).running == 0
    ensures var t := StatsOf(Served(s, q, routes, c, sel).stats, id);
      t.running == 0 && t.processed == StatsOf(s.stats, id).processed + (if id == sel.route.id then 1 else 0)
  {
    var e, at := WithStats(s.stats, routes), sel.route.id;
    var started := Started(e, at, sel.reason);
    forall x: string ensures StatsOf(started, x).running == if x == at then 1 else 0 {
      DefaultsHarmless(s.stats, routes, x);
      assert StatsOf(s.stats, x).running == 0;
    }
    DefaultsHarmless(s.stats, routes, id);
    Settles(started, at, q.hops, id);
  }

  /** The route chosen has the fewest requests behind it. */
  lemma ChosenHasFewest(s: State, q: Request, routes: seq<Route>, c: Config, sel: Selection, r: Route)
    requires c.cacheThreshold >= 1.0 && r in routes
    requires s.metrics == map[] && forall x: string :: StatsOf(s.stats, x).running == 0
    requires Chosen(Entered(s, q.model, routes), q.model, q.text, routes, c, q.tier, sel)
    ensures sel.route in routes
    ensures StatsOf(s.stats, sel.route.id).processed <= StatsOf(s.stats, r.id).processed
  {
    var e := Entered(s, q.model, routes);
    ChoosesLeast(e, q, routes, c, sel);
    forall x: string ensures StatsOf(e.stats, x) == StatsOf(s.stats, x) && StatsOf(s.stats, x).running == 0 {
      DefaultsHarmless(s.stats, routes, x);
    }
    LeastHasFewest(e, routes, c, q.tier, r);
  }

  lemma EvenStep(s: State, q: Request, routes: seq<Route>, c: Config, t: State)
    requires routes != [] && c.cacheThreshold >= 1.0 && Even(s, routes) && Serves(s, q, routes, c, t)
    ensures Even(t, routes)
  {
    var sel :| Chosen(Entered(s, q.model, routes), q.model, q.text, routes, c, q.tier, sel)
        && t == Served(s, q, routes, c, sel);
    forall x: string ensures StatsOf(t.stats, x).running == 0 { ServedOnce(s, q, routes, c, sel, x); }
    forall i, j | 0 <= i < |routes| && 0 <= j < |routes|
      ensures StatsOf(t.stats, routes[i].id).processed <= StatsOf(t.stats, routes[j].id).processed + 1
    {
      ServedOnce(s, q, routes, c, sel, routes[i].id);
      ServedOnce(s, q, routes, c, sel, routes[j].id);
      ChosenHasFewest(s, q, routes, c, sel, routes[j]);
    }
  }

  /** Idle balance: however many requests have come and gone one at a time, and whatever they
      asked, no route has processed two more than another. */
  lemma {:induction false} IdleBalance(states: seq<State>, requests: seq<Request>, routes: seq<Route>, c: Config,
      k: nat)
    requires routes != [] && c.cacheThreshold >= 1.0
    requires SequentialRun(states, requests, routes, c) && Even(states[0], routes)
    requires k < |states|
    ensures Even(states[k], routes)
  {
    if k > 0 {
      IdleBalance(states, requests, routes, c, k - 1);
      assert Serves(states[k - 1], requests[k - 1], routes, c, states[k - 1 + 1]);
      EvenStep(states[k - 1], requests[k - 1], routes, c, states[k]);
    }
  }
}
