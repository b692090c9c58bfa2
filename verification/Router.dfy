/**
 The cache- and load-aware router (`src/middleware/router.rs`): route pressure, the
 lexicographic least-loaded choice, the cache override, in-flight guards and per-route
 history.  The clock is frozen within one selection (a metric carries its age) and `f32`
 and `f64` are exact reals.
 */
module Router {
  import opened Basics
  import opened Ordering

  datatype Tier = Basic | Premium
  datatype Route = Route(id: string, upstream: string)
  datatype Config = Config(cacheThreshold: real, absThreshold: nat, relThreshold: real, maxHistory: nat, staleMs: nat)
  datatype Stats = Stats(running: nat, processed: nat, byCache: nat, byLoad: nat, byOrder: nat)
  datatype Metrics = Metrics(
    ok: bool, ageMs: Option<nat>, observedRunning: Option<real>, observedWaiting: Option<real>,
    globalLimit: Option<real>, basicLimit: Option<real>, basicInflight: Option<real>)

  const DEFAULT := Stats(0, 0, 0, 0, 0)

  type StatsMap = map<string, Stats>
  type History = map<string, map<string, seq<string>>>

  datatype State = State(stats: StatsMap, history: History, metrics: map<string, Metrics>)

  function StatsOf(stats: StatsMap, id: string): Stats {
    if id in stats then stats[id] else DEFAULT
  }

  // ----- pressure -----

  datatype Pressure = Pressure(blocked: bool, metricsMissing: bool, waiting: nat, fullness: nat, running: nat,
      processed: nat)

  /** A float to `u64` or `usize` cast saturates. */
  function Saturate(n: int): nat {
    if n < 0 then 0 else if n > U64_MAX then U64_MAX else n
  }

  function NonNegative(v: Option<real>): real {
    if v.Some? && v.value > 0.0 then v.value else 0.0
  }

  function Ceil(x: real): int {
    -((-x).Floor)
  }

  /** `ratio_milli`: thousandths of the limit, rounded half up; no limit counts as empty. */
  function RatioMilli(value: real, limit: Option<real>): nat {
    if limit.None? || limit.value <= 0.0 then 0 else Saturate((value / limit.value * 1000.0 + 0.5).Floor)
  }

  predicate Usable(m: Metrics, c: Config) {
    m.ok && m.ageMs.Some? && m.ageMs.value <= c.staleMs
  }

  function Max(a: nat, b: nat): nat {
    if a < b then b else a
  }

  function Fullness(m: Metrics, tier: Tier): nat {
    var all := RatioMilli(NonNegative(m.observedRunning), m.globalLimit);
    if tier == Premium then all else Max(all, RatioMilli(NonNegative(m.basicInflight), m.basicLimit))
  }

  /** `route_pressure`. */
  function PressureOf(s: State, r: Route, c: Config, tier: Tier): Pressure {
    var st := StatsOf(s.stats, r.id);
    if r.upstream !in s.metrics || !Usable(s.metrics[r.upstream], c) then
      Pressure(false, true, 0, 0, st.running, st.processed)
    else
      var m := s.metrics[r.upstream];
      var waiting, full := NonNegative(m.observedWaiting), Fullness(m, tier);
      Pressure(waiting > 0.0 || full >= 1000, false, Saturate(Ceil(waiting)), full,
               Max(st.running, Saturate(Ceil(NonNegative(m.observedRunning)))), st.processed)
  }

  function Bit(b: bool): int {
    if b then 1 else 0
  }

  /** `route_order_key`: the tuple, laid out for lexicographic comparison. */
  function Key(s: State, r: Route, c: Config, tier: Tier): seq<int> {
    var p := PressureOf(s, r, c, tier);
    [Bit(p.blocked), Bit(p.metricsMissing), p.waiting, p.fullness, p.running, p.processed] + CodePoints(r.id)
  }

  /** `least_loaded`: the first route with the least key. */
  function Least(s: State, routes: seq<Route>, c: Config, tier: Tier): (r: Route)
    requires routes != []
    ensures r in routes
  {
    if |routes| == 1 then routes[0]
    else
      var t := Least(s, routes[1..], c, tier);
      if LexLess(Key(s, t, c, tier), Key(s, routes[0], c, tier)) then t else routes[0]
  }

  lemma {:induction false} LeastIsLeast(s: State, routes: seq<Route>, c: Config, tier: Tier, r: Route)
    requires r in routes
    ensures !LexLess(Key(s, r, c, tier), Key(s, Least(s, routes, c, tier), c, tier))
  {
    var k := Key(s, Least(s, routes, c, tier), c, tier);
    if |routes| == 1 || r == routes[0] {
      LexAsymmetric(Key(s, routes[0], c, tier), k);
      LexIrreflexive(k);
    } else {
      LeastIsLeast(s, routes[1..], c, tier, r);
      var t := Key(s, Least(s, routes[1..], c, tier), c, tier);
      if LexLess(Key(s, r, c, tier), k) {
        LexTotal(t, k);
        if LexLess(k, t) { LexTransitive(Key(s, r, c, tier), k, t); }
      }
    }
  }

  lemma LexAsymmetric(a: seq<int>, b: seq<int>)
    ensures !(LexLess(a, b) && LexLess(b, a))
  {
    if LexLess(a, b) && LexLess(b, a) {
      LexTransitive(a, b, a);
      LexIrreflexive(a);
    }
  }

  /** A route that is not below another in the order is not better in the first component. */
  lemma KeyOrder(s: State, a: Route, b: Route, c: Config, tier: Tier)
    requires !LexLess(Key(s, a, c, tier), Key(s, b, c, tier))
    ensures PressureOf(s, b, c, tier).blocked ==> PressureOf(s, a, c, tier).blocked
  {
    var x, y := Key(s, a, c, tier), Key(s, b, c, tier);
    assert x[0] == Bit(PressureOf(s, a, c, tier).blocked) && y[0] == Bit(PressureOf(s, b, c, tier).blocked);
  }

  /** One route is to be preferred to another: unblocked, with metrics, fewer waiting, less
      full, fewer running, fewer served, the smaller id; each only counts when all before it
      are equal. */
  predicate Lighter(p: Pressure, a: string, q: Pressure, b: string) {
    if p.blocked != q.blocked then q.blocked
    else if p.metricsMissing != q.metricsMissing then q.metricsMissing
    else if p.waiting != q.waiting then p.waiting < q.waiting
    else if p.fullness != q.fullness then p.fullness < q.fullness
    else if p.running != q.running then p.running < q.running
    else if p.processed != q.processed then p.processed < q.processed
    else LexLess(CodePoints(a), CodePoints(b))
  }

  lemma LexStep(x: int, xs: seq<int>, y: int, ys: seq<int>)
    ensures LexLess([x] + xs, [y] + ys) <==> x < y || (x == y && LexLess(xs, ys))
  {
    assert ([x] + xs)[1..] == xs && ([y] + ys)[1..] == ys;
  }

  lemma KeyRanks(s: State, a: Route, b: Route, c: Config, tier: Tier)
    ensures LexLess(Key(s, a, c, tier), Key(s, b, c, tier))
            <==> Lighter(PressureOf(s, a, c, tier), a.id, PressureOf(s, b, c, tier), b.id)
  {
    var p, q, x, y := PressureOf(s, a, c, tier), PressureOf(s, b, c, tier), CodePoints(a.id), CodePoints(b.id);
    LexStep(p.processed, x, q.processed, y);
    LexStep(p.running, [p.processed] + x, q.running, [q.processed] + y);
    LexStep(p.fullness, [p.running] + ([p.processed] + x), q.fullness, [q.running] + ([q.processed] + y));
    FirstThree(p, q, [p.fullness] + ([p.running] + ([p.processed] + x)),
        [q.fullness] + ([q.running] + ([q.processed] + y)));
    KeyLayout(p, x);
    KeyLayout(q, y);
  }

  lemma FirstThree(p: Pressure, q: Pressure, xs: seq<int>, ys: seq<int>)
    ensures LexLess([Bit(p.blocked)] + ([Bit(p.metricsMissing)] + ([p.waiting] + xs)),
                    [Bit(q.blocked)] + ([Bit(q.metricsMissing)] + ([q.waiting] + ys)))
            <==> if p.blocked != q.blocked then q.blocked
                 else if p.metricsMissing != q.metricsMissing then q.metricsMissing
                 else p.waiting < q.waiting || (p.waiting == q.waiting && LexLess(xs, ys))
  {
    LexStep(p.waiting, xs, q.waiting, ys);
    LexStep(Bit(p.metricsMissing), [p.waiting] + xs, Bit(q.metricsMissing), [q.waiting] + ys);
    LexStep(Bit(p.blocked), [Bit(p.metricsMissing)] + ([p.waiting] + xs),
            Bit(q.blocked), [Bit(q.metricsMissing)] + ([q.waiting] + ys));
  }

  lemma KeyLayout(p: Pressure, x: seq<int>)
    ensures [Bit(p.blocked), Bit(p.metricsMissing), p.waiting, p.fullness, p.running, p.processed] + x
            == [Bit(p.blocked)] + ([Bit(p.metricsMissing)]
                + ([p.waiting] + ([p.fullness] + ([p.running] + ([p.processed] + x)))))
  {
  }

  /** No route is to be preferred to the least loaded one. */
  lemma LeastIsLightest(s: State, routes: seq<Route>, c: Config, tier: Tier, r: Route)
    requires r in routes
    ensures var least := Least(s, routes, c, tier);
      !Lighter(PressureOf(s, r, c, tier), r.id, PressureOf(s, least, c, tier), least.id)
  {
    LeastIsLeast(s, routes, c, tier, r);
    KeyRanks(s, r, Least(s, routes, c, tier), c, tier);
  }

  /** Of two routes with fresh metrics and nobody waiting, neither of them full, the less full
      one is chosen, however many requests run on either. */
  lemma LessFullIsChosen(s: State, a: Route, b: Route, c: Config, tier: Tier)
    requires a.upstream in s.metrics && b.upstream in s.metrics
    requires Usable(s.metrics[a.upstream], c) && Usable(s.metrics[b.upstream], c)
    requires NonNegative(s.metrics[a.upstream].observedWaiting) == 0.0
          && NonNegative(s.metrics[b.upstream].observedWaiting) == 0.0
    requires Fullness(s.metrics[a.upstream], tier) < Fullness(s.metrics[b.upstream], tier) < 1000
    ensures Least(s, [a, b], c, tier) == a && Least(s, [b, a], c, tier) == a
  {
    LeastIsLightest(s, [a, b], c, tier, a);
    LeastIsLightest(s, [b, a], c, tier, a);
    assert PressureOf(s, a, c, tier).waiting == PressureOf(s, b, c, tier).waiting;
    assert forall r :: r in [a, b] || r in [b, a] ==> r == a || r == b;
  }

  // ----- status -----

  datatype Status = Green | Yellow | Red

  /** `route_status_code`. */
  function RouteStatus(s: State, r: Route, c: Config, tier: Tier): Status {
    var p := PressureOf(s, r, c, tier);
    if p.blocked || p.waiting > 0 || p.fullness >= 1000 then Red
    else if p.metricsMissing || p.fullness >= 850 then Yellow
    else if r.upstream !in s.metrics then Yellow
    else
      var m := s.metrics[r.upstream];
      var known := m.globalLimit.Some? && m.globalLimit.value > 0.0
                   && (tier == Premium || (m.basicLimit.Some? && m.basicLimit.value > 0.0));
      if known then Green else Yellow
  }

  /** `upstream_status_code`: the best status among the routes; none is red. */
  method UpstreamStatus(s: State, routes: seq<Route>, c: Config, tier: Tier) returns (status: Status)
    ensures status == Green <==> exists r :: r in routes && RouteStatus(s, r, c, tier) == Green
    ensures status != Red <==> exists r :: r in routes && RouteStatus(s, r, c, tier) != Red
  {
    var sawYellow := false;
    for i := 0 to |routes|
      invariant forall j :: 0 <= j < i ==> RouteStatus(s, routes[j], c, tier) != Green
      invariant sawYellow <==> exists j :: 0 <= j < i && RouteStatus(s, routes[j], c, tier) == Yellow
    {
      var code := RouteStatus(s, routes[i], c, tier);
      if code == Green { return Green; }
      if code == Yellow { sawYellow := true; }
    }
    return if sawYellow then Yellow else Red;
  }

  /** A route is red exactly when it is blocked. */
  lemma RedIsBlocked(s: State, r: Route, c: Config, tier: Tier)
    ensures RouteStatus(s, r, c, tier) == Red <==> PressureOf(s, r, c, tier).blocked
  {
  }

  /** `ratio_milli` is the nearest whole number of thousandths, unless it saturates. */
  lemma RatioIsRounded(value: real, limit: real)
    requires value >= 0.0 && limit > 0.0 && RatioMilli(value, Some(limit)) < U64_MAX
    ensures var r := RatioMilli(value, Some(limit)) as real;
      r - 0.5 <= value / limit * 1000.0 < r + 0.5
  {
    var x := value / limit;
    Quotient(value, limit);
    assert (x * 1000.0 + 0.5).Floor >= 0;
  }

  lemma Quotient(value: real, limit: real)
    requires value >= 0.0 && limit > 0.0
    ensures value / limit >= 0.0
  {
  }

  /** Rounded to thousandths, a load is below `n` exactly when it is below `n - 0.5` of them. */
  lemma RatioBelow(value: real, limit: real, n: nat)
    requires value >= 0.0 && limit > 0.0 && 0 < n <= 1000
    ensures RatioMilli(value, Some(limit)) < n <==> value * 1000.0 < (n as real - 0.5) * limit
  {
    var x := value / limit;
    Quotient(value, limit);
    assert value == x * limit;
    assert (x * 1000.0 + 0.5).Floor < n <==> x * 1000.0 + 0.5 < n as real;
    assert x * 1000.0 * limit == value * 1000.0;
    Scaled(x * 1000.0, n as real - 0.5, limit);
  }

  lemma Scaled(x: real, y: real, k: real)
    requires k > 0.0
    ensures x < y <==> x * k < y * k
  {
  }

  /** The load is under `n` thousandths of a known limit. */
  predicate Under(load: Option<real>, limit: Option<real>, n: nat) {
    && limit.Some? && limit.value > 0.0
    && (load.None? || load.value * 1000.0 < (n as real - 0.5) * limit.value)
  }

  lemma UnderExactly(load: Option<real>, limit: Option<real>, n: nat)
    requires 0 < n <= 1000 && limit.Some? && limit.value > 0.0
    ensures RatioMilli(NonNegative(load), limit) < n <==> Under(load, limit, n)
  {
    RatioBelow(NonNegative(load), limit.value, n);
    Scaled(0.0, n as real - 0.5, limit.value);
    assert load.Some? && load.value <= 0.0 ==> load.value * 1000.0 <= 0.0;
  }

  /** A route is green exactly when its metrics are fresh, nobody waits, and running requests
      (for the basic tier, basic requests too) are under 85% of a known limit. */
  lemma GreenExactly(s: State, r: Route, c: Config, tier: Tier)
    ensures RouteStatus(s, r, c, tier) == Green <==>
              && r.upstream in s.metrics
              && var m := s.metrics[r.upstream];
                 && m.ok && m.ageMs.Some? && m.ageMs.value <= c.staleMs
                 && (m.observedWaiting.None? || m.observedWaiting.value <= 0.0)
                 && Under(m.observedRunning, m.globalLimit, 850)
                 && (tier == Premium || Under(m.basicInflight, m.basicLimit, 850))
  {
    if r.upstream in s.metrics {
      var m := s.metrics[r.upstream];
      if m.globalLimit.Some? && m.globalLimit.value > 0.0 { UnderExactly(m.observedRunning, m.globalLimit, 850); }
      if m.basicLimit.Some? && m.basicLimit.value > 0.0 { UnderExactly(m.basicInflight, m.basicLimit, 850); }
    }
  }

  /** The load has reached a known limit. */
  predicate Reached(load: Option<real>, limit: Option<real>) {
    limit.Some? && limit.value > 0.0 && !Under(load, limit, 1000)
  }

  /** A route is red exactly when its metrics are fresh and somebody waits or a limit of the
      tier is reached. */
  lemma RedExactly(s: State, r: Route, c: Config, tier: Tier)
    ensures RouteStatus(s, r, c, tier) == Red <==>
              && r.upstream in s.metrics
              && var m := s.metrics[r.upstream];
                 && m.ok && m.ageMs.Some? && m.ageMs.value <= c.staleMs
                 && ((m.observedWaiting.Some? && m.observedWaiting.value > 0.0)
                     || Reached(m.observedRunning, m.globalLimit)
                     || (tier == Basic && Reached(m.basicInflight, m.basicLimit)))
  {
    RedIsBlocked(s, r, c, tier);
    if r.upstream in s.metrics {
      var m := s.metrics[r.upstream];
      if m.globalLimit.Some? && m.globalLimit.value > 0.0 { UnderExactly(m.observedRunning, m.globalLimit, 1000); }
      if m.basicLimit.Some? && m.basicLimit.value > 0.0 { UnderExactly(m.basicInflight, m.basicLimit, 1000); }
    }
  }

  function Severity(s: Status): nat {
    match s case Green => 0 case Yellow => 1 case Red => 2
  }

  /** The basic tier is never better off than the premium tier: it is blocked whenever the
      premium tier is, at least as full, and its status at least as severe. */
  lemma BasicIsNeverBetter(s: State, r: Route, c: Config)
    ensures PressureOf(s, r, c, Premium).blocked ==> PressureOf(s, r, c, Basic).blocked
    ensures PressureOf(s, r, c, Premium).fullness <= PressureOf(s, r, c, Basic).fullness
    ensures Severity(RouteStatus(s, r, c, Premium)) <= Severity(RouteStatus(s, r, c, Basic))
  {
  }

  // ----- selection -----

  /** `common_prefix_chars`. */
  function CommonPrefix(a: string, b: string): (n: nat)
    ensures n <= |a| && n <= |b| && a[..n] == b[..n]
    ensures n < |a| && n < |b| ==> a[n] != b[n]
  {
    if a == "" || b == "" || a[0] != b[0] then 0
    else
      var n := CommonPrefix(a[1..], b[1..]);
      assert a[..n + 1] == [a[0]] + a[1..][..n] && b[..n + 1] == [b[0]] + b[1..][..n];
      n + 1
  }

  /** The longest common prefix with any recorded text. */
  function BestMatch(samples: seq<string>, text: string): (n: nat)
    ensures n <= |text|
  {
    if samples == [] then 0 else Max(CommonPrefix(samples[0], text), BestMatch(samples[1..], text))
  }

  function Samples(s: State, model: string, id: string): seq<string> {
    if model in s.history && id in s.history[model] then s.history[model][id] else []
  }

  lemma ShareBounded(a: nat, b: nat)
    requires a <= b && b > 0
    ensures 0.0 <= a as real / b as real <= 1.0
  {
    var x, y := a as real, b as real;
    assert y / y == 1.0;
    assert x / y <= y / y;
  }

  /** The share of `text` a route has recently seen. */
  function Rate(s: State, model: string, text: string, r: Route): (x: real)
    ensures 0.0 <= x <= 1.0
  {
    var n := if |text| == 0 then 1 else |text|;
    ShareBounded(BestMatch(Samples(s, model, r.id), text), n);
    BestMatch(Samples(s, model, r.id), text) as real / n as real
  }

  lemma {:induction false} NoLongerMatch(samples: seq<string>, text: string, x: string)
    requires x in samples
    ensures CommonPrefix(x, text) <= BestMatch(samples, text)
  {
    if x != samples[0] { NoLongerMatch(samples[1..], text, x); }
  }

  lemma {:induction false} MatchAttained(samples: seq<string>, text: string) returns (x: string)
    requires BestMatch(samples, text) > 0
    ensures x in samples && CommonPrefix(x, text) == BestMatch(samples, text)
  {
    x := samples[0];
    if CommonPrefix(x, text) != BestMatch(samples, text) {
      x := MatchAttained(samples[1..], text);
      assert x in samples[1..];
    }
  }

  lemma AgreeUpTo(x: string, text: string, k: nat)
    requires k <= |x| && k <= |text| && x[..k] == text[..k]
    ensures k <= CommonPrefix(x, text)
  {
    assert forall i :: 0 <= i < k ==> x[i] == x[..k][i] && text[i] == text[..k][i];
  }

  /** The rate is the longest beginning of the text that some recorded text shares, as a share
      of the text: none shares more, and one shares as much. */
  lemma RateIsLongestShare(s: State, model: string, text: string, r: Route, x: string, k: nat)
      returns (n: nat, y: string)
    requires text != "" && x in Samples(s, model, r.id) && k <= |x| && k <= |text| && x[..k] == text[..k]
    ensures k <= n && Rate(s, model, text, r) == n as real / |text| as real
    ensures y in Samples(s, model, r.id) && n <= |y| && n <= |text| && y[..n] == text[..n]
  {
    var samples := Samples(s, model, r.id);
    n, y := BestMatch(samples, text), x;
    AgreeUpTo(x, text, k);
    NoLongerMatch(samples, text, x);
    if n > 0 { y := MatchAttained(samples, text); }
  }

  /** A load gap beyond both thresholds. */
  predicate TooFarAbove(load: nat, base: nat, c: Config) {
    load - base > c.absThreshold && load as real > base as real * c.relThreshold
  }

  /** `cache_route_is_acceptable`. */
  predicate Acceptable(s: State, cache: Route, least: Route, c: Config, tier: Tier) {
    var p, q := PressureOf(s, cache, c, tier), PressureOf(s, least, c, tier);
    && !(p.blocked && !q.blocked)
    && !(p.metricsMissing && !q.metricsMissing)
    && !(p.waiting > 0 && q.waiting == 0)
    && p.fullness <= Saturate(q.fullness + 250)
    && !TooFarAbove(p.running, q.running, c)
  }

  datatype Reason = Cache | Single | LoadImbalance | NoText | LeastRunning

  datatype Selection = Selection(route: Route, reason: Reason, rate: real, runningAtSelect: nat)

  function Load(s: State, r: Route, c: Config, tier: Tier): nat {
    PressureOf(s, r, c, tier).running
  }

  /** `max` and `min` are the extreme loads of the routes. */
  ghost predicate Extremes(s: State, routes: seq<Route>, c: Config, tier: Tier, min: nat, max: nat) {
    && (forall i :: 0 <= i < |routes| ==> min <= Load(s, routes[i], c, tier) <= max)
    && (exists i :: 0 <= i < |routes| && Load(s, routes[i], c, tier) == min)
    && (exists i :: 0 <= i < |routes| && Load(s, routes[i], c, tier) == max)
  }

  /** A least load at the `usize` maximum is taken for none seen, and reset to zero. */
  function LeastLoad(min: nat): nat {
    if min >= U64_MAX then 0 else min
  }

  /** The most loaded route is beyond both thresholds above the least loaded one. */
  ghost predicate Imbalanced(s: State, routes: seq<Route>, c: Config, tier: Tier) {
    exists min: nat, max: nat :: Extremes(s, routes, c, tier, min, max) && TooFarAbove(max, LeastLoad(min), c)
  }

  /** No route has seen more of the text, and none that has seen as much is less loaded. */
  ghost predicate BestCached(s: State, model: string, text: string, routes: seq<Route>, c: Config, tier: Tier,
      b: Route) {
    b in routes && forall i :: 0 <= i < |routes| ==> Dominates(s, model, text, c, tier, b, routes[i])
  }

  predicate Dominates(s: State, model: string, text: string, c: Config, tier: Tier, b: Route, r: Route) {
    var x, y := Rate(s, model, text, b), Rate(s, model, text, r);
    y < x || (y == x && !LexLess(Key(s, r, c, tier), Key(s, b, c, tier)))
  }

  /** The outcome of a selection among at least one route. */
  ghost predicate Chosen(s: State, model: string, text: string, routes: seq<Route>, c: Config, tier: Tier,
      sel: Selection)
    requires routes != []
  {
    var least := Least(s, routes, c, tier);
    if |routes| == 1 then sel == Selection(routes[0], Single, 0.0, StatsOf(s.stats, routes[0].id).running)
    else
      && sel.runningAtSelect == Load(s, sel.route, c, tier)
      && if Imbalanced(s, routes, c, tier) then sel.route == least && sel.reason == LoadImbalance && sel.rate == 0.0
         else if text == "" then sel.route == least && sel.reason == NoText && sel.rate == 0.0
         else CacheAware(s, model, text, routes, c, tier, sel)
  }

  /** The cached route wins when it has seen enough and is not too loaded; otherwise the least loaded does. */
  ghost predicate CacheAware(s: State, model: string, text: string, routes: seq<Route>, c: Config, tier: Tier,
      sel: Selection)
    requires routes != []
  {
    var least := Least(s, routes, c, tier);
    exists b :: BestCached(s, model, text, routes, c, tier, b) && sel.rate == Rate(s, model, text, b)
      && if sel.rate > c.cacheThreshold && Acceptable(s, b, least, c, tier) then sel.route == b && sel.reason == Cache
         else sel.route == least && sel.reason == LeastRunning
  }

  /** No worse than another route where that one is at its best, and at most 250 thousandths
      and a threshold away from it. */
  predicate Near(p: Pressure, q: Pressure, c: Config) {
    && (p.blocked ==> q.blocked) && (p.metricsMissing ==> q.metricsMissing) && (p.waiting > 0 ==> q.waiting > 0)
    && p.fullness <= q.fullness + 250
    && (p.running <= q.running + c.absThreshold || p.running as real <= q.running as real * c.relThreshold)
  }

  lemma AcceptableIsNear(s: State, a: Route, b: Route, c: Config, tier: Tier)
    ensures Acceptable(s, a, b, c, tier) <==> Near(PressureOf(s, a, c, tier), PressureOf(s, b, c, tier), c)
  {
    FullnessBounded(s, a, c, tier);
  }

  /** Selection safety: an unblocked route is chosen exactly when the aggregate status is not
      red, and the choice stays near the least-key route. */
  lemma SelectionIsSafe(s: State, model: string, text: string, routes: seq<Route>, c: Config, tier: Tier,
      sel: Selection)
    requires routes != [] && Chosen(s, model, text, routes, c, tier, sel)
    ensures sel.route in routes
    ensures !PressureOf(s, sel.route, c, tier).blocked <==> exists r :: r in routes && RouteStatus(s, r, c, tier) != Red
    ensures Near(PressureOf(s, sel.route, c, tier), PressureOf(s, Least(s, routes, c, tier), c, tier), c)
  {
    ChosenIsAcceptable(s, model, text, routes, c, tier, sel);
    UnblockedExactly(s, routes, c, tier, sel.route);
    AcceptableIsNear(s, sel.route, Least(s, routes, c, tier), c, tier);
  }

  lemma UnblockedExactly(s: State, routes: seq<Route>, c: Config, tier: Tier, chosen: Route)
    requires chosen in routes && Acceptable(s, chosen, Least(s, routes, c, tier), c, tier)
    ensures !PressureOf(s, chosen, c, tier).blocked <==> exists r :: r in routes && RouteStatus(s, r, c, tier) != Red
  {
    if PressureOf(s, Least(s, routes, c, tier), c, tier).blocked {
      forall r | r in routes ensures RouteStatus(s, r, c, tier) == Red { BlockedLeast(s, routes, c, tier, r); }
    }
    RedIsBlocked(s, chosen, c, tier);
  }

  /** When even the least-key route is blocked, every route is red. */
  lemma BlockedLeast(s: State, routes: seq<Route>, c: Config, tier: Tier, r: Route)
    requires r in routes && PressureOf(s, Least(s, routes, c, tier), c, tier).blocked
    ensures RouteStatus(s, r, c, tier) == Red
  {
    LeastIsLeast(s, routes, c, tier, r);
    KeyOrder(s, r, Least(s, routes, c, tier), c, tier);
    RedIsBlocked(s, r, c, tier);
  }

  /** Whatever path a choice takes, it passes the acceptance test against the least-key route. */
  lemma ChosenIsAcceptable(s: State, model: string, text: string, routes: seq<Route>, c: Config, tier: Tier,
      sel: Selection)
    requires routes != [] && Chosen(s, model, text, routes, c, tier, sel)
    ensures sel.route in routes && Acceptable(s, sel.route, Least(s, routes, c, tier), c, tier)
  {
    var least := Least(s, routes, c, tier);
    SelfAcceptable(s, least, c, tier);
    if |routes| == 1 {
      assert sel.route == least;
    } else if !Imbalanced(s, routes, c, tier) && text != "" {
      CacheAwareIsAcceptable(s, model, text, routes, c, tier, sel);
    }
  }

  lemma CacheAwareIsAcceptable(s: State, model: string, text: string, routes: seq<Route>, c: Config, tier: Tier,
      sel: Selection)
    requires routes != [] && CacheAware(s, model, text, routes, c, tier, sel)
    ensures sel.route in routes
        && (sel.route == Least(s, routes, c, tier) || Acceptable(s, sel.route, Least(s, routes, c, tier), c, tier))
  {
  }

  lemma SelfAcceptable(s: State, r: Route, c: Config, tier: Tier)
    ensures Acceptable(s, r, r, c, tier)
  {
    FullnessBounded(s, r, c, tier);
  }

  lemma FullnessBounded(s: State, r: Route, c: Config, tier: Tier)
    ensures PressureOf(s, r, c, tier).fullness <= U64_MAX
  {
  }

  /** A cache choice is earned: no route has seen more of the text, and the share seen beats
      the threshold. */
  lemma CacheChoiceIsEarned(s: State, model: string, text: string, routes: seq<Route>, c: Config, tier: Tier,
      sel: Selection, r: Route)
    requires routes != [] && Chosen(s, model, text, routes, c, tier, sel) && sel.reason == Cache && r in routes
    ensures Rate(s, model, text, r) <= Rate(s, model, text, sel.route)
        && c.cacheThreshold < Rate(s, model, text, sel.route)
  {
    var b :| BestCached(s, model, text, routes, c, tier, b) && sel.rate == Rate(s, model, text, b) && sel.route == b;
    var i :| 0 <= i < |routes| && routes[i] == r;
    assert Dominates(s, model, text, c, tier, b, routes[i]);
  }

  /** And an earned one is made: nothing else being in the way, a route that has seen more
      than the threshold is passed over only for a gap to the least loaded route. */
  lemma EarnedCacheIsChosen(s: State, model: string, text: string, routes: seq<Route>, c: Config, tier: Tier,
      sel: Selection, r: Route)
    requires |routes| > 1 && Chosen(s, model, text, routes, c, tier, sel) && r in routes && text != ""
    requires !Imbalanced(s, routes, c, tier) && Rate(s, model, text, r) > c.cacheThreshold
    requires forall b :: b in routes ==> NearLeast(s, b, routes, c, tier)
    ensures sel.reason == Cache
  {
    EarnedAmong(s, model, text, routes, c, tier, sel, r);
  }

  lemma EarnedAmong(s: State, model: string, text: string, routes: seq<Route>, c: Config, tier: Tier,
      sel: Selection, r: Route)
    requires r in routes && CacheAware(s, model, text, routes, c, tier, sel)
    requires Rate(s, model, text, r) > c.cacheThreshold
    requires forall b :: b in routes ==> NearLeast(s, b, routes, c, tier)
    ensures sel.reason == Cache
  {
    var least := Least(s, routes, c, tier);
    var b :| BestCached(s, model, text, routes, c, tier, b) && sel.rate == Rate(s, model, text, b)
      && (sel.rate > c.cacheThreshold && Acceptable(s, b, least, c, tier) ==> sel.reason == Cache);
    var i :| 0 <= i < |routes| && routes[i] == r;
    assert Dominates(s, model, text, c, tier, b, routes[i]);
    assert NearLeast(s, b, routes, c, tier);
    AcceptableIsNear(s, b, least, c, tier);
  }

  predicate NearLeast(s: State, r: Route, routes: seq<Route>, c: Config, tier: Tier)
    requires routes != []
  {
    Near(PressureOf(s, r, c, tier), PressureOf(s, Least(s, routes, c, tier), c, tier), c)
  }

  lemma {:induction false} ExtremesExist(s: State, routes: seq<Route>, c: Config, tier: Tier)
      returns (min: nat, max: nat)
    requires routes != []
    ensures Extremes(s, routes, c, tier, min, max)
  {
    var first := Load(s, routes[0], c, tier);
    min, max := first, first;
    if |routes| > 1 {
      var lo, hi := ExtremesExist(s, routes[1..], c, tier);
      min, max := if lo < first then lo else first, if first < hi then hi else first;
      var i, j :| 0 <= i < |routes| - 1 && 0 <= j < |routes| - 1
        && Load(s, routes[1..][i], c, tier) == lo && Load(s, routes[1..][j], c, tier) == hi;
      assert routes[i + 1] == routes[1..][i] && routes[j + 1] == routes[1..][j];
      assert forall k :: 0 < k < |routes| ==> routes[k] == routes[1..][k - 1];
    }
  }

  predicate Gap(lo: nat, hi: nat, c: Config) {
    hi > lo + c.absThreshold && hi as real > lo as real * c.relThreshold
  }

  lemma WiderGap(lo: nat, hi: nat, min: nat, max: nat, c: Config)
    requires min <= lo && hi <= max && Gap(lo, hi, c)
    ensures TooFarAbove(max, LeastLoad(min), c)
  {
    var m := LeastLoad(min);
    if c.relThreshold >= 0.0 {
      assert (lo as real - m as real) * c.relThreshold >= 0.0;
    } else {
      assert m as real * c.relThreshold <= 0.0;
    }
  }

  lemma GapIsImbalance(s: State, routes: seq<Route>, c: Config, tier: Tier, i: nat, j: nat)
    requires i < |routes| && j < |routes| && Gap(Load(s, routes[i], c, tier), Load(s, routes[j], c, tier), c)
    ensures Imbalanced(s, routes, c, tier)
  {
    var min, max := ExtremesExist(s, routes, c, tier);
    WiderGap(Load(s, routes[i], c, tier), Load(s, routes[j], c, tier), min, max, c);
  }

  /** A gap beyond both thresholds between any two routes sends the request to the least
      loaded one, whatever has been seen where. */
  lemma GapPicksLeast(s: State, model: string, text: string, routes: seq<Route>, c: Config, tier: Tier,
      sel: Selection, i: nat, j: nat)
    requires |routes| > 1 && Chosen(s, model, text, routes, c, tier, sel)
    requires i < |routes| && j < |routes| && Gap(Load(s, routes[i], c, tier), Load(s, routes[j], c, tier), c)
    ensures sel.route == Least(s, routes, c, tier) && sel.reason == LoadImbalance
  {
    GapIsImbalance(s, routes, c, tier, i, j);
  }

  // ----- state changes of a selection -----

  const MAX_TEXT := 16384

  /** `entry(id).or_default()` for every route. */
  function WithStats(stats: StatsMap, routes: seq<Route>): StatsMap
    decreases |routes|
  {
    if routes == [] then stats
    else WithStats(if routes[0].id in stats then stats else stats[routes[0].id := DEFAULT], routes[1..])
  }

  function WithHistory(h: History, model: string, routes: seq<Route>): History
    decreases |routes|
  {
    if routes == [] then h
    else
      var perRoute := if model in h then h[model] else map[];
      WithHistory(h[model := if routes[0].id in perRoute then perRoute else perRoute[routes[0].id := []]], model,
          routes[1..])
  }

  /** Default entries change no count. */
  lemma {:induction false} DefaultsHarmless(stats: StatsMap, routes: seq<Route>, id: string)
    ensures StatsOf(WithStats(stats, routes), id) == StatsOf(stats, id)
    ensures id in WithStats(stats, routes) <==> id in stats || exists i :: 0 <= i < |routes| && routes[i].id == id
    decreases |routes|
  {
    if routes != [] {
      DefaultsHarmless(if routes[0].id in stats then stats else stats[routes[0].id := DEFAULT], routes[1..], id);
      assert routes == [routes[0]] + routes[1..];
    }
  }

  function Take(text: string, n: nat): string {
    if |text| <= n then text else text[..n]
  }

  function LastN<T>(xs: seq<T>, n: nat): seq<T> {
    if |xs| <= n then xs else xs[|xs| - n..]
  }

  /** `record_history`: append the bounded text, drop the oldest beyond the limit. */
  function Recorded(h: History, model: string, id: string, text: string, max: nat): History {
    if text == "" || max == 0 then h
    else
      var perRoute := if model in h then h[model] else map[];
      var samples := if id in perRoute then perRoute[id] else [];
      h[model := perRoute[id := LastN(samples + [Take(text, MAX_TEXT)], max)]]
  }

  lemma LastOfAppend<T>(xs: seq<T>, x: T, n: nat)
    requires n > 0
    ensures LastN(LastN(xs, n) + [x], n) == LastN(xs + [x], n)
  {
  }

  /** One selection, as far as the history goes: the routes it ran over, the one it chose. */
  datatype Note = Note(model: string, routes: seq<Route>, id: string, text: string)

  /** The history after these selections. */
  function HistoryAfter(h: History, notes: seq<Note>, max: nat): History {
    if notes == [] then h
    else
      var n := notes[|notes| - 1];
      var before := HistoryAfter(h, notes[..|notes| - 1], max);
      Recorded(WithHistory(before, n.model, n.routes), n.model, n.id, n.text, max)
  }

  function Bounded(text: string): string {
    if |text| <= 16384 then text else text[..16384]
  }

  /** The texts worth recording for one route, in order and bounded. */
  function TextsFor(notes: seq<Note>, model: string, id: string): seq<string> {
    if notes == [] then []
    else
      var n, before := notes[|notes| - 1], TextsFor(notes[..|notes| - 1], model, id);
      if n.model == model && n.id == id && n.text != "" then before + [Bounded(n.text)] else before
  }

  function SamplesIn(h: History, model: string, id: string): seq<string> {
    if model in h && id in h[model] then h[model][id] else []
  }

  /** Default entries add no sample. */
  lemma {:induction false} EntriesAddNothing(h: History, m: string, routes: seq<Route>, model: string, id: string)
    ensures SamplesIn(WithHistory(h, m, routes), model, id) == SamplesIn(h, model, id)
    decreases |routes|
  {
    if routes != [] {
      var perRoute := if m in h then h[m] else map[];
      EntriesAddNothing(h[m := if routes[0].id in perRoute then perRoute else perRoute[routes[0].id := []]], m,
          routes[1..], model, id);
    }
  }

  /** After any run of selections, a route's history is the last `max` of its texts. */
  lemma HistoryIsLastTexts(notes: seq<Note>, max: nat, model: string, id: string)
    ensures var texts := TextsFor(notes, model, id);
      SamplesIn(HistoryAfter(map[], notes, max), model, id) == if |texts| <= max then texts else texts[|texts| - max..]
  {
    HistoryKeepsLast(notes, max, model, id);
  }

  lemma OneNote(h: History, n: Note, max: nat, model: string, id: string)
    ensures SamplesIn(Recorded(WithHistory(h, n.model, n.routes), n.model, n.id, n.text, max), model, id)
            == if n.model == model && n.id == id && n.text != "" && max > 0
               then LastN(SamplesIn(h, model, id) + [Bounded(n.text)], max) else SamplesIn(h, model, id)
  {
    EntriesAddNothing(h, n.model, n.routes, model, id);
    assert Take(n.text, MAX_TEXT) == Bounded(n.text);
  }

  lemma {:induction false} HistoryKeepsLast(notes: seq<Note>, max: nat, model: string, id: string)
    ensures SamplesIn(HistoryAfter(map[], notes, max), model, id) == LastN(TextsFor(notes, model, id), max)
    decreases |notes|
  {
    if notes != [] {
      var n, rest := notes[|notes| - 1], notes[..|notes| - 1];
      HistoryKeepsLast(rest, max, model, id);
      OneNote(HistoryAfter(map[], rest, max), n, max, model, id);
      if max > 0 { LastOfAppend(TextsFor(rest, model, id), Bounded(n.text), max); }
    }
  }

  // ----- in-flight guards -----

  /** `mark_started`. */
  function Started(stats: StatsMap, id: string, reason: Reason): StatsMap {
    var st := StatsOf(stats, id);
    stats[id := st.(running := st.running + 1, processed := st.processed + 1,
                    byCache := st.byCache + (if reason == Cache then 1 else 0),
                    byOrder := st.byOrder + (if reason == Single then 1 else 0),
                    byLoad := st.byLoad + (if reason == Cache || reason == Single then 0 else 1))]
  }

  /** `decrement_running`, a saturating subtraction. */
  function Decremented(stats: StatsMap, id: string): StatsMap {
    if id !in stats then stats
    else stats[id := stats[id].(running := if stats[id].running == 0 then 0 else stats[id].running - 1)]
  }

  function Incremented(stats: StatsMap, id: string): StatsMap {
    stats[id := StatsOf(stats, id).(running := StatsOf(stats, id).running + 1)]
  }

  /** `retarget`: nothing when the guard already aims there. */
  function Retargeted(stats: StatsMap, from: string, to: string): StatsMap {
    if from == to then stats else Incremented(Decremented(stats, from), to)
  }

  /** Live guards and the route each aims at. */
  type Guards = map<nat, string>

  function Aimed(guards: Guards, id: string): set<nat> {
    set g | g in guards && guards[g] == id
  }

  datatype GuardStep =
    | Begin(guard: nat, id: string, reason: Reason)   // a selection starts a request
    | Retarget(guard: nat, id: string)                // failover to another route
    | Drop(guard: nat)                                // the request is over
    | Touch(routes: seq<Route>)                       // a selection adds default entries

  predicate CanStep(guards: Guards, e: GuardStep) {
    match e
    case Begin(g, _, _) => g !in guards
    case Retarget(g, _) => g in guards
    case Drop(g) => g in guards
    case Touch(_) => true
  }

  function StatsAfter(stats: StatsMap, guards: Guards, e: GuardStep): StatsMap
    requires CanStep(guards, e)
  {
    match e
    case Begin(_, id, reason) => Started(stats, id, reason)
    case Retarget(g, id) => Retargeted(stats, guards[g], id)
    case Drop(g) => Decremented(stats, guards[g])
    case Touch(routes) => WithStats(stats, routes)
  }

  function GuardsAfter(guards: Guards, e: GuardStep): Guards
    requires CanStep(guards, e)
  {
    match e
    case Begin(g, id, _) => guards[g := id]
    case Retarget(g, id) => guards[g := id]
    case Drop(g) => guards - {g}
    case Touch(_) => guards
  }

  /** Every route's `running` is the number of live guards aimed at it, and its `processed`
      the sum of the three reasons it was selected for. */
  ghost predicate Conserved(stats: StatsMap, guards: Guards) {
    forall id: string ::
      && StatsOf(stats, id).running == |Aimed(guards, id)|
      && StatsOf(stats, id).processed
           == StatsOf(stats, id).byCache + StatsOf(stats, id).byLoad + StatsOf(stats, id).byOrder
  }

  lemma AimAdded(guards: Guards, g: nat, to: string, id: string)
    requires g !in guards
    ensures |Aimed(guards[g := to], id)| == |Aimed(guards, id)| + (if id == to then 1 else 0)
  {
    if id == to {
      assert Aimed(guards[g := to], id) == Aimed(guards, id) + {g};
    } else {
      assert Aimed(guards[g := to], id) == Aimed(guards, id);
    }
  }

  lemma AimRemoved(guards: Guards, g: nat, id: string)
    requires g in guards
    ensures |Aimed(guards, id)| == |Aimed(guards - {g}, id)| + (if id == guards[g] then 1 else 0)
  {
    assert (guards - {g})[g := guards[g]] == guards;
    AimAdded(guards - {g}, g, guards[g], id);
  }

  lemma ConservedStep(stats: StatsMap, guards: Guards, e: GuardStep)
    requires Conserved(stats, guards) && CanStep(guards, e)
    ensures Conserved(StatsAfter(stats, guards, e), GuardsAfter(guards, e))
    ensures e.Drop? || (e.Retarget? && e.id != guards[e.guard]) ==>
              guards[e.guard] in stats && stats[guards[e.guard]].running > 0
  {
    forall id: string
      ensures StatsOf(StatsAfter(stats, guards, e), id).running == |Aimed(GuardsAfter(guards, e), id)|
      ensures StatsOf(StatsAfter(stats, guards, e), id).processed
              == StatsOf(StatsAfter(stats, guards, e), id).byCache + StatsOf(StatsAfter(stats, guards, e), id).byLoad
                 + StatsOf(StatsAfter(stats, guards, e), id).byOrder
    {
      StatsStep(stats, guards, e, id);
    }
    if e.Drop? || e.Retarget? {
      assert e.guard in Aimed(guards, guards[e.guard]);
      assert StatsOf(stats, guards[e.guard]).running == |Aimed(guards, guards[e.guard])|;
    }
  }

  lemma StatsStep(stats: StatsMap, guards: Guards, e: GuardStep, id: string)
    requires Conserved(stats, guards) && CanStep(guards, e)
    ensures var t := StatsOf(StatsAfter(stats, guards, e), id);
      t.running == |Aimed(GuardsAfter(guards, e), id)| && t.processed == t.byCache + t.byLoad + t.byOrder
  {
    assert StatsOf(stats, id).running == |Aimed(guards, id)|;
    match e
    case Begin(g, to, _) => AimAdded(guards, g, to, id);
    case Drop(g) => AimRemoved(guards, g, id);
    case Touch(routes) => DefaultsHarmless(stats, routes, id);
    case Retarget(g, to) =>
      AimRemoved(guards, g, id);
      AimAdded(guards - {g}, g, to, id);
      assert (guards - {g})[g := to] == guards[g := to];
      if to != guards[g] {
        assert g in Aimed(guards, guards[g]);
        assert StatsOf(stats, guards[g]).running == |Aimed(guards, guards[g])|;
      }
  }

  predicate Runnable(guards: Guards, steps: seq<GuardStep>)
    decreases |steps|
  {
    steps == [] || (CanStep(guards, steps[0]) && Runnable(GuardsAfter(guards, steps[0]), steps[1..]))
  }

  function StatsRun(stats: StatsMap, guards: Guards, steps: seq<GuardStep>): StatsMap
    requires Runnable(guards, steps)
    decreases |steps|
  {
    if steps == [] then stats
        else StatsRun(StatsAfter(stats, guards, steps[0]), GuardsAfter(guards, steps[0]), steps[1..])
  }

  function GuardsRun(guards: Guards, steps: seq<GuardStep>): Guards
    requires Runnable(guards, steps)
    decreases |steps|
  {
    if steps == [] then guards else GuardsRun(GuardsAfter(guards, steps[0]), steps[1..])
  }

  /** Conservation over every interleaving of starts, retargets, drops and selections. */
  lemma {:induction false} InFlightConserved(stats: StatsMap, guards: Guards, steps: seq<GuardStep>)
    requires Conserved(stats, guards) && Runnable(guards, steps)
    ensures Conserved(StatsRun(stats, guards, steps), GuardsRun(guards, steps))
    decreases |steps|
  {
    if steps != [] {
      ConservedStep(stats, guards, steps[0]);
      InFlightConserved(StatsAfter(stats, guards, steps[0]), GuardsAfter(guards, steps[0]), steps[1..]);
    }
  }

  /** From a fresh router: when every guard is gone, nothing is counted as running. */
  lemma DrainedRouterIsIdle(steps: seq<GuardStep>, id: string)
    requires Runnable(map[], steps) && GuardsRun(map[], steps) == map[]
    ensures StatsOf(StatsRun(map[], map[], steps), id).running == 0
  {
    forall i: string ensures Aimed(map[], i) == {} {}
    InFlightConserved(map[], map[], steps);
    assert |Aimed(map[], id)| == 0;
  }

  /** How many of the steps begin a request at the route for a reason of the kind. */
  function Begins(steps: seq<GuardStep>, id: string, kind: Reason -> bool): nat {
    if steps == [] then 0
    else Hit(steps[0], id, kind) + Begins(steps[1..], id, kind)
  }

  function Hit(e: GuardStep, id: string, kind: Reason -> bool): nat {
    if e.Begin? && e.id == id && kind(e.reason) then 1 else 0
  }

  lemma StepCounted(stats: StatsMap, guards: Guards, e: GuardStep, id: string)
    requires CanStep(guards, e)
    ensures var before, after := StatsOf(stats, id), StatsOf(StatsAfter(stats, guards, e), id);
      && after.byCache == before.byCache + Hit(e, id, r => r == Cache)
      && after.byOrder == before.byOrder + Hit(e, id, r => r == Single)
      && after.byLoad == before.byLoad + Hit(e, id, r => r != Cache && r != Single)
      && after.processed == before.processed + Hit(e, id, _ => true)
  {
    if e.Touch? { DefaultsHarmless(stats, e.routes, id); }
  }

  /** Over every run, each counter of a route has grown by exactly the requests begun there
      for its reason; failovers and ends count for none. */
  lemma {:induction false} SelectionsCounted(stats: StatsMap, guards: Guards, steps: seq<GuardStep>, id: string)
    requires Runnable(guards, steps)
    ensures var before, after := StatsOf(stats, id), StatsOf(StatsRun(stats, guards, steps), id);
      && after.byCache == before.byCache + Begins(steps, id, r => r == Cache)
      && after.byOrder == before.byOrder + Begins(steps, id, r => r == Single)
      && after.byLoad == before.byLoad + Begins(steps, id, r => r != Cache && r != Single)
      && after.processed == before.processed + Begins(steps, id, _ => true)
    decreases |steps|
  {
    if steps != [] {
      StepCounted(stats, guards, steps[0], id);
      SelectionsCounted(StatsAfter(stats, guards, steps[0]), GuardsAfter(guards, steps[0]), steps[1..], id);
    }
  }
}
