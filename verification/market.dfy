/** One tick of the market simulation: price random walk, history push, indicator walks, trend,
    change percentage and signal, for every pair of a snapshot. */
module Market {
  import opened Options
  import opened Signals
  import opened History
  import Text

  /** A percentage as JavaScript computes it: `NonFinite` is the Infinity or NaN of a division by zero. */
  datatype Percent = Finite(value: real) | NonFinite

  /** The state of one currency pair. */
  datatype Pair = Pair(
    symbol: string,
    currentPrice: real,
    history: seq<Point>,
    change: Percent,
    rsi: real,
    stochastic: real,
    signal: Signal,
    lastUpdated: int)

  /** The four `Math.random()` draws one pair consumes per tick, in the order the source makes them. */
  datatype Draws = Draws(noise: real, step: real, rsi: real, stoch: real)

  /** What `Math.random()` promises: a value in [0, 1). */
  predicate IsDraw(r: real)
  {
    0.0 <= r < 1.0
  }

  predicate ValidDraws(d: Draws)
  {
    IsDraw(d.noise) && IsDraw(d.step) && IsDraw(d.rsi) && IsDraw(d.stoch)
  }

  /** The base step size: large for yen-quoted pairs, whose prices are about a hundred times larger. */
  function BaseVolatility(symbol: string): real
  {
    if Text.Contains(symbol, "JPY") then 0.03 else 0.00008
  }

  /** The tick's volatility: the base step scaled by a noise factor in [0.8, 1.2). */
  function Volatility(symbol: string, r: real): (v: real)
    requires IsDraw(r)
    ensures 0.8 * BaseVolatility(symbol) <= v < 1.2 * BaseVolatility(symbol)
  {
    BaseVolatility(symbol) * (0.8 + r * 0.4)
  }

  /** `generateNextPrice`: a signed uniform step of at most half the volatility either way. */
  function NextPrice(current: real, volatility: real, r: real): (p: real)
    requires IsDraw(r) && volatility >= 0.0
    ensures current - volatility / 2.0 <= p <= current + volatility / 2.0
    ensures volatility > 0.0 ==> p < current + volatility / 2.0
    ensures r == 0.5 ==> p == current
  {
    var step := (r - 0.5) * volatility;
    ScaledStepBound(r, volatility);
    assert volatility > 0.0 ==> step < volatility / 2.0;
    current + step
  }

  /** A draw re-centred to [-1/2, 1/2) scales a non-negative step to at most half of it either way. */
  lemma ScaledStepBound(r: real, v: real)
    requires IsDraw(r) && v >= 0.0
    ensures -(v / 2.0) <= (r - 0.5) * v <= v / 2.0
    ensures v > 0.0 ==> (r - 0.5) * v < v / 2.0
  {
    NonNegativeProduct(r, v);
    NonNegativeProduct(1.0 - r, v);
    if v > 0.0 {
      PositiveProduct(1.0 - r, v);
    }
  }

  lemma NonNegativeProduct(x: real, y: real)
    requires x >= 0.0 && y >= 0.0
    ensures x * y >= 0.0
  {
  }

  lemma PositiveProduct(x: real, y: real)
    requires x > 0.0 && y > 0.0
    ensures x * y > 0.0
  {
  }

  /** `Math.max(lo, Math.min(hi, x))`. */
  function Clamp(lo: real, hi: real, x: real): (c: real)
    requires lo <= hi
    ensures lo <= c <= hi
    ensures lo <= x <= hi ==> c == x
    ensures x < lo ==> c == lo
    ensures x > hi ==> c == hi
  {
    if x > hi then hi else if x < lo then lo else x
  }

  function Abs(x: real): real
  {
    if x < 0.0 then -x else x
  }

  /** Clamping never moves two values further apart. */
  lemma ClampNonExpansive(lo: real, hi: real, x: real, y: real)
    requires lo <= hi
    ensures Abs(Clamp(lo, hi, x) - Clamp(lo, hi, y)) <= Abs(x - y)
  {
  }

  /** The synthetic RSI walk: a step in [-2.5, 2.5) clamped to [10, 90]. */
  function NextRsi(rsi: real, r: real): (v: real)
    requires IsDraw(r)
    ensures 10.0 <= v <= 90.0
    ensures 10.0 <= rsi <= 90.0 ==> rsi - 2.5 <= v <= rsi + 2.5
  {
    Clamp(10.0, 90.0, rsi + (r - 0.5) * 5.0)
  }

  /** The synthetic stochastic walk: a step in [-4, 4) clamped to [5, 95]. */
  function NextStochastic(stoch: real, r: real): (v: real)
    requires IsDraw(r)
    ensures 5.0 <= v <= 95.0
    ensures 5.0 <= stoch <= 95.0 ==> stoch - 4.0 <= v <= stoch + 4.0
  {
    Clamp(5.0, 95.0, stoch + (r - 0.5) * 8.0)
  }

  /** `((price - ref) / ref) * 100`, non-finite when the reference price is zero. */
  function ChangePercent(price: real, ref: real): (c: Percent)
    ensures c.Finite? <==> ref != 0.0
    ensures c.Finite? ==> c.value * ref == (price - ref) * 100.0
  {
    if ref == 0.0 then NonFinite else Finite((price - ref) / ref * 100.0)
  }

  /** The tick step for one pair. `None` is the source's TypeError: a history shorter than ten
      points after the push has no `newHistory[length - 10]` to read. */
  function TickPair(p: Pair, d: Draws, now: int): (r: Option<Pair>)
    requires ValidDraws(d)
    ensures r.Some? <==> |p.history| >= 10
    ensures r.Some? ==> TickedFrom(p, d, now, r.value)
  {
    var newPrice := NextPrice(p.currentPrice, Volatility(p.symbol, d.noise), d.step);
    var newHistory := Push(p.history, Point(now, newPrice));
    var newRsi := NextRsi(p.rsi, d.rsi);
    var newStoch := NextStochastic(p.stochastic, d.stoch);
    if |newHistory| < 10 then None
    else
      var trend := newPrice - newHistory[|newHistory| - 10].value;
      var change := ChangePercent(newPrice, newHistory[0].value);
      Some(p.(
        currentPrice := newPrice,
        history := newHistory,
        change := change,
        rsi := newRsi,
        stochastic := newStoch,
        signal := CalculateSignal(newRsi, newStoch, trend),
        lastUpdated := now))
  }

  /** What one tick promises about a pair with at least ten points: the symbol is kept; the price
      and both oscillators take this tick's steps with its own draws; the price moves by at most
      0.6 of its base step; the history slides by one point ending in
      `(now, newPrice)`; the indicators stay in their domains; trend and change read the pushed
      history (its 10th-from-last and first points, which were the 9th-from-last and second
      points before the push); and the pair is stamped with `now`. */
  ghost predicate TickedFrom(p: Pair, d: Draws, now: int, q: Pair)
    requires |p.history| >= 10 && ValidDraws(d)
  {
    var n := |p.history|;
    && q.symbol == p.symbol
    && q.currentPrice == NextPrice(p.currentPrice, Volatility(p.symbol, d.noise), d.step)
    && q.rsi == NextRsi(p.rsi, d.rsi)
    && q.stochastic == NextStochastic(p.stochastic, d.stoch)
    && -0.6 * BaseVolatility(p.symbol) <= q.currentPrice - p.currentPrice <= 0.6 * BaseVolatility(p.symbol)
    && |q.history| == n
    && q.history[n - 1] == Point(now, q.currentPrice)
    && (forall i :: 0 <= i < n - 1 ==> q.history[i] == p.history[i + 1])
    && 10.0 <= q.rsi <= 90.0
    && 5.0 <= q.stochastic <= 95.0
    && (10.0 <= p.rsi <= 90.0 ==> p.rsi - 2.5 <= q.rsi <= p.rsi + 2.5)
    && (5.0 <= p.stochastic <= 95.0 ==> p.stochastic - 4.0 <= q.stochastic <= p.stochastic + 4.0)
    && q.signal == CalculateSignal(q.rsi, q.stochastic, q.currentPrice - p.history[n - 9].value)
    && q.change == ChangePercent(q.currentPrice, p.history[1].value)
    && q.lastUpdated == now
  }

  predicate AllValid(draws: seq<Draws>)
  {
    forall i :: 0 <= i < |draws| ==> ValidDraws(draws[i])
  }

  /** The interval callback: every pair advances with its own draws, or, when one of them has too
      short a history, the callback throws and no new snapshot is produced. */
  function Tick(snapshot: seq<Pair>, draws: seq<Draws>, now: int): (r: Option<seq<Pair>>)
    requires |draws| == |snapshot| && AllValid(draws)
    ensures r.Some? <==> forall i :: 0 <= i < |snapshot| ==> |snapshot[i].history| >= 10
    ensures r.Some? ==> |r.value| == |snapshot|
    ensures r.Some? ==> forall i :: 0 <= i < |snapshot| ==> TickPair(snapshot[i], draws[i], now) == Some(r.value[i])
    decreases |snapshot|
  {
    if |snapshot| == 0 then Some([])
    else
      var head := TickPair(snapshot[0], draws[0], now);
      var tail := Tick(snapshot[1..], draws[1..], now);
      if head.None? then None
      else if tail.None? then
        assert |snapshot[1..][0].history| < 10 || exists i :: 1 <= i < |snapshot| && |snapshot[i].history| < 10;
        None
      else
        Some([head.value] + tail.value)
  }

  /** A tick keeps the number of pairs, their order and their symbols, and stamps every pair with `now`. */
  lemma TickKeepsPairs(snapshot: seq<Pair>, draws: seq<Draws>, now: int)
    requires |draws| == |snapshot| && AllValid(draws)
    requires forall i :: 0 <= i < |snapshot| ==> |snapshot[i].history| >= 10
    ensures Tick(snapshot, draws, now).Some?
    ensures forall i :: 0 <= i < |snapshot| ==>
      Tick(snapshot, draws, now).value[i].symbol == snapshot[i].symbol &&
      Tick(snapshot, draws, now).value[i].lastUpdated == now
  {
    var r := Tick(snapshot, draws, now).value;
    forall i | 0 <= i < |snapshot|
      ensures r[i].symbol == snapshot[i].symbol && r[i].lastUpdated == now
    {
      assert TickPair(snapshot[i], draws[i], now) == Some(r[i]);
    }
  }

  /** A pair in its steady state: a full history and both indicators in their domains. */
  predicate WellFormedPair(p: Pair)
  {
    |p.history| == Capacity && 10.0 <= p.rsi <= 90.0 && 5.0 <= p.stochastic <= 95.0
  }

  predicate WellFormed(snapshot: seq<Pair>)
  {
    forall i :: 0 <= i < |snapshot| ==> WellFormedPair(snapshot[i])
  }

  /** A tick on a steady-state snapshot always succeeds and yields a steady-state snapshot. */
  lemma TickPreservesWellFormed(snapshot: seq<Pair>, draws: seq<Draws>, now: int)
    requires |draws| == |snapshot| && AllValid(draws)
    requires WellFormed(snapshot)
    ensures Tick(snapshot, draws, now).Some?
    ensures WellFormed(Tick(snapshot, draws, now).value)
  {
    var r := Tick(snapshot, draws, now).value;
    forall i | 0 <= i < |snapshot|
      ensures WellFormedPair(r[i])
    {
      assert TickPair(snapshot[i], draws[i], now) == Some(r[i]);
    }
  }

  /** The draws of a run of ticks each fit a snapshot of `n` pairs. */
  predicate ValidRun(n: nat, draws: seq<seq<Draws>>)
  {
    forall k :: 0 <= k < |draws| ==> |draws[k]| == n && AllValid(draws[k])
  }

  /** Consecutive ticks, the k-th at time `nows[k]` with draws `draws[k]`; `None` once a tick throws. */
  function Simulate(snapshot: seq<Pair>, draws: seq<seq<Draws>>, nows: seq<int>): (r: Option<seq<Pair>>)
    requires |nows| == |draws| && ValidRun(|snapshot|, draws)
    ensures r.Some? ==> |r.value| == |snapshot|
    decreases |draws|
  {
    if |draws| == 0 then Some(snapshot)
    else
      match Tick(snapshot, draws[0], nows[0])
      case None => None
      case Some(next) => Simulate(next, draws[1..], nows[1..])
  }

  /** Across arbitrarily many ticks from a steady-state snapshot, no tick throws. */
  lemma {:induction false} SimulationNeverThrows(snapshot: seq<Pair>, draws: seq<seq<Draws>>, nows: seq<int>)
    requires |nows| == |draws| && ValidRun(|snapshot|, draws)
    requires WellFormed(snapshot)
    ensures Simulate(snapshot, draws, nows).Some?
    decreases |draws|
  {
    if |draws| > 0 {
      TickPreservesWellFormed(snapshot, draws[0], nows[0]);
      var next := Tick(snapshot, draws[0], nows[0]).value;
      RestOfRunFits(|next|, draws);
      SimulationNeverThrows(next, draws[1..], nows[1..]);
    }
  }

  /** Across arbitrarily many ticks from a steady-state snapshot, the run completes, every history
      keeps its capacity, and RSI and stochastic never leave [10, 90] and [5, 95]. */
  lemma {:induction false} SimulationStaysWellFormed(snapshot: seq<Pair>, draws: seq<seq<Draws>>, nows: seq<int>)
    requires |nows| == |draws| && ValidRun(|snapshot|, draws)
    requires WellFormed(snapshot)
    ensures Simulate(snapshot, draws, nows).Some?
    ensures WellFormed(Simulate(snapshot, draws, nows).value)
    decreases |draws|
  {
    if |draws| > 0 {
      TickPreservesWellFormed(snapshot, draws[0], nows[0]);
      var next := Tick(snapshot, draws[0], nows[0]).value;
      RestOfRunFits(|next|, draws);
      SimulationNeverThrows(next, draws[1..], nows[1..]);
      SimulationStaysWellFormed(next, draws[1..], nows[1..]);
    }
  }

  lemma RestOfRunFits(n: nat, draws: seq<seq<Draws>>)
    requires |draws| > 0 && ValidRun(n, draws)
    ensures ValidRun(n, draws[1..])
  {
    assert forall k :: 0 <= k < |draws[1..]| ==> draws[1..][k] == draws[k + 1];
  }
}
