/** Session start: base prices from the exchange-rate service or the built-in fallback table, and
    the seeded snapshot the simulation starts from. */
module Session {
  import opened Signals
  import opened History
  import opened Market
  import Text

  /** A tracked symbol and the price its history is seeded with. */
  datatype BasePair = BasePair(symbol: string, basePrice: real)

  /** The approximate prices used whenever live rates are unavailable. */
  const FallbackPairs: seq<BasePair> := [
    BasePair("EUR/USD OTC", 1.05420),
    BasePair("GBP/USD OTC", 1.26120),
    BasePair("USD/JPY OTC", 154.65),
    BasePair("AUD/CAD OTC", 0.91380),
    BasePair("USD/CHF OTC", 0.88550),
    BasePair("NZD/USD OTC", 0.58420),
    BasePair("EUR/JPY OTC", 163.15),
    BasePair("GBP/JPY OTC", 195.35)
  ]

  /** Units of each currency per US dollar, as the exchange-rate service reports them. */
  datatype RateTable = RateTable(eur: real, gbp: real, jpy: real, cad: real, aud: real, chf: real, nzd: real)

  /** The outcome of the one rate request: it failed (network error or unreadable body, both caught),
      the response was not ok, or a rate table arrived. */
  datatype FetchOutcome = Failed | NotOk | Rates(table: RateTable)

  /** The rates the cross-rate formulas divide by are nonzero. */
  predicate UsableRates(t: RateTable)
  {
    t.eur != 0.0 && t.gbp != 0.0 && t.aud != 0.0 && t.nzd != 0.0
  }

  /** Base prices derived from a rate table: inverse, direct and ratio cross rates. */
  function RatePairs(t: RateTable): (ps: seq<BasePair>)
    requires UsableRates(t)
    ensures |ps| == |FallbackPairs|
    ensures forall i :: 0 <= i < |ps| ==> ps[i].symbol == FallbackPairs[i].symbol
    ensures ps[0].basePrice * t.eur == 1.0
    ensures ps[1].basePrice * t.gbp == 1.0
    ensures ps[2].basePrice == t.jpy
    ensures ps[3].basePrice * t.aud == t.cad
    ensures ps[4].basePrice == t.chf
    ensures ps[5].basePrice * t.nzd == 1.0
    ensures ps[6].basePrice * t.eur == t.jpy
    ensures ps[7].basePrice * t.gbp == t.jpy
  {
    [
      BasePair("EUR/USD OTC", 1.0 / t.eur),
      BasePair("GBP/USD OTC", 1.0 / t.gbp),
      BasePair("USD/JPY OTC", t.jpy),
      BasePair("AUD/CAD OTC", t.cad / t.aud),
      BasePair("USD/CHF OTC", t.chf),
      BasePair("NZD/USD OTC", 1.0 / t.nzd),
      BasePair("EUR/JPY OTC", t.jpy / t.eur),
      BasePair("GBP/JPY OTC", t.jpy / t.gbp)
    ]
  }

  /** The yen crosses derived from live rates agree with the dollar pairs: EUR/JPY is EUR/USD times
      USD/JPY, and GBP/JPY is GBP/USD times USD/JPY. */
  lemma CrossRatesConsistent(t: RateTable)
    requires UsableRates(t)
    ensures RatePairs(t)[6].basePrice == RatePairs(t)[0].basePrice * RatePairs(t)[2].basePrice
    ensures RatePairs(t)[7].basePrice == RatePairs(t)[1].basePrice * RatePairs(t)[2].basePrice
  {
  }

  /** The seeded history: `Capacity` copies of the base price, one second apart, index 0 at `now`. */
  function SeedHistory(base: real, now: int): (h: seq<Point>)
    ensures |h| == Capacity
    ensures forall i :: 0 <= i < |h| ==> h[i].value == base
    ensures h[0].timestamp == now
    ensures forall i, j :: 0 <= i < j < |h| ==> h[i].timestamp > h[j].timestamp
  {
    seq(Capacity, i requires 0 <= i < Capacity => Point(now - i * 1000, base))
  }

  /** A freshly seeded pair. */
  function SeedPair(b: BasePair, now: int): Pair
  {
    Pair(b.symbol, b.basePrice, SeedHistory(b.basePrice, now), Finite(0.0), 50.0, 50.0, Neutral, now)
  }

  /** The state every pair starts in: its base price, the seeded flat history stamped newest-first,
      no change, both oscillators at 50 and a NEUTRAL signal. */
  ghost predicate Seeded(p: Pair, b: BasePair, now: int)
  {
    && p.symbol == b.symbol
    && p.currentPrice == b.basePrice
    && p.history == SeedHistory(b.basePrice, now)
    && |p.history| == Capacity
    && (forall i :: 0 <= i < |p.history| ==> p.history[i].value == b.basePrice)
    && p.change == Finite(0.0)
    && p.rsi == 50.0 && p.stochastic == 50.0
    && p.signal == Neutral
    && p.lastUpdated == now
  }

  /** The initial snapshot and whether it was synchronised with live rates. */
  datatype Start = Start(snapshot: seq<Pair>, usingRealRates: bool)

  /** `initData`: live rates when a table arrived, the fallback table otherwise; then seed every pair. */
  function Initialise(outcome: FetchOutcome, now: int): (s: Start)
    requires outcome.Rates? ==> UsableRates(outcome.table)
    ensures s.usingRealRates <==> outcome.Rates?
    ensures |s.snapshot| == |FallbackPairs|
    ensures !outcome.Rates? ==> forall i :: 0 <= i < |s.snapshot| ==> Seeded(s.snapshot[i], FallbackPairs[i], now)
    ensures outcome.Rates? ==> forall i :: 0 <= i < |s.snapshot| ==> Seeded(s.snapshot[i], RatePairs(outcome.table)[i], now)
    ensures forall i :: 0 <= i < |s.snapshot| ==> s.snapshot[i].symbol == FallbackPairs[i].symbol
    ensures WellFormed(s.snapshot)
  {
    var bases := if outcome.Rates? then RatePairs(outcome.table) else FallbackPairs;
    Start(seq(|bases|, i requires 0 <= i < |bases| => SeedPair(bases[i], now)), outcome.Rates?)
  }

  /** The yen pairs of the fallback table (indices 2, 6 and 7) take the large base step; the others the small one. */
  lemma FallbackVolatilityClasses(i: nat)
    requires i < |FallbackPairs|
    ensures BaseVolatility(FallbackPairs[i].symbol) == if i == 2 || i == 6 || i == 7 then 0.03 else 0.00008
  {
    var sym := FallbackPairs[i].symbol;
    if i == 2 || i == 6 || i == 7 {
      assert sym[4..7] == "JPY";
      assert Text.OccursAt(sym, "JPY", 4);
    } else {
      assert forall k :: 0 <= k < |sym| ==> sym[k] != 'J';
      Text.AbsentLetter(sym, "JPY");
    }
  }

  /** The draws at the midpoint of every range. */
  const Midpoint: Draws := Draws(0.5, 0.5, 0.5, 0.5)

  /** A tick of a freshly seeded pair with midpoint draws leaves the price and both oscillators where
      they were, reports zero change and classifies as NEUTRAL. */
  lemma MidpointTickFromSeed(b: BasePair, seededAt: int, now: int)
    requires b.basePrice != 0.0
    ensures TickPair(SeedPair(b, seededAt), Midpoint, now).Some?
    ensures var q := TickPair(SeedPair(b, seededAt), Midpoint, now).value;
      && q.currentPrice == b.basePrice
      && q.change == Finite(0.0)
      && q.rsi == 50.0 && q.stochastic == 50.0
      && q.signal == Neutral
  {
    var p := SeedPair(b, seededAt);
    var q := TickPair(p, Midpoint, now).value;
    assert p.history[Capacity - 9].value == b.basePrice;
    assert p.history[1].value == b.basePrice;
  }

  /** End to end: after a failed rate request, one all-midpoint tick leaves EUR/USD at 1.05420 with
      zero change, both oscillators at 50 and a NEUTRAL signal. */
  lemma MidpointTickOfFallbackSession(seededAt: int, now: int)
    ensures var s := Initialise(Failed, seededAt).snapshot;
      var draws := seq(|s|, _ => Midpoint);
      AllValid(draws) &&
      var next := Tick(s, draws, now);
      && next.Some?
      && next.value[0].currentPrice == 1.05420
      && next.value[0].change == Finite(0.0)
      && next.value[0].rsi == 50.0 && next.value[0].stochastic == 50.0
      && next.value[0].signal == Neutral
  {
    var s := Initialise(Failed, seededAt).snapshot;
    var draws := seq(|s|, _ => Midpoint);
    TickPreservesWellFormed(s, draws, now);
    assert s[0] == SeedPair(FallbackPairs[0], seededAt);
    MidpointTickFromSeed(FallbackPairs[0], seededAt, now);
  }
}
