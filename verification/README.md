# OTC signal dashboard: market tick engine and chart window, modelled in Dafny

This project models the two pure engines of a simulated forex/OTC signal dashboard.

- **The market tick.** Each currency pair carries a current price, a 40-point history, a change
  percentage, a synthetic RSI and stochastic oscillator, a trading signal and a timestamp. Every
  tick performs these steps in order:
  - a random-walk price step whose size depends on whether the symbol is a yen pair;
  - a sliding-window history push;
  - clamped random walks for the two oscillators;
  - a trend read from the 10th-from-last point;
  - a change percentage against the window's oldest point;
  - the five-way, first-match-wins signal classification.
- **Session start.** The base prices come from an exchange-rate request. On any failure they come
  from a built-in fallback table. Each pair is then seeded with a flat 40-point history.
- **The chart window.** Each card's chart keeps a `(viewSize, viewOffset)` window. Five controls
  change it: zoom in, zoom out, pan left, pan right and reset. A slice function picks the visible
  points, and the live-edge marker is drawn only when the window ends at the newest point.

The modules are:

- `Options`: an optional value.
- `Text`: substring search.
- `Signals`: the classifier and the overlay's bullish/bearish mapping.
- `History`: the sliding window.
- `Market`: price, indicator and tick functions.
- `Session`: the fallback table, the rate-derived prices and the seeded snapshot.
- `ViewWindow`: the window state machine and the visible slice.

Modelling choices:

- Every `Math.random()` draw is a parameter in `[0, 1)`. A pair consumes four draws per tick, in
  source order: volatility noise, price step, RSI step and stochastic step.
- `Date.now()` is a parameter `now`. One value serves a whole tick, and one serves the whole
  initialisation.
- Prices and indicators are `real`. A change percentage with a zero reference price is
  `NonFinite`, which stands for JavaScript's Infinity/NaN.
- Reading `newHistory[length - 10]` on a history shorter than ten points throws a TypeError in the
  source. The model returns `None` for that pair, and the whole tick then produces no snapshot.
- `slice` is modelled with JavaScript's index rules: negative indices count from the end, and
  indices are clipped to the length.

Three facts about the code shape the model:

- The signal guards overlap. STRONG_BUY's guard overlaps BUY's, and STRONG_SELL's overlaps SELL's.
  The evaluation order decides those cases: for example, `(25, 15, +1)` gives STRONG_BUY. Only the
  opposite-direction guards exclude each other.
- Zoom-out never re-clamps the offset, and pan-left clamps with the current size. So
  `viewOffset <= len - viewSize` is not kept: after zooming out at the far left, the offset
  exceeds `len - viewSize`, and the next pan-left moves the window toward live. What does hold is
  `5 <= viewSize <= len` and `0 <= viewOffset <= len - 5`. That is enough for every visible slice
  to be non-empty.
- Seeded timestamps run newest-first: index 0 is `now` and later indices are older. Ticks append
  newer points at the end. So the model states no timestamp order over a buffer after ticks.

## Model

| member | source | states |
|---|---|---|
| Text.Contains | App.tsx:96 | `includes` is true exactly when the text occurs at some index of the symbol |
| Signals.CalculateSignal | App.tsx:26-32 | the returned signal's guard holds and no guard earlier in the evaluation order holds (first match wins) |
| Signals.FirstMatchIsUnique | App.tsx:26-32 | a signal satisfies first-match-wins if and only if it is the classifier's result |
| Signals.StrongBuyIgnoresTrend | App.tsx:27-29 | rsi < 30 and stoch < 20 give STRONG_BUY for every trend, including trends where BUY's guard also holds |
| Signals.StrongBuyExample | App.tsx:26-32 | (25, 15, +1) classifies as STRONG_BUY |
| Signals.NeutralIffNoGuard | App.tsx:26-31 | NEUTRAL is returned if and only if none of the four guards holds |
| Signals.OppositeGuardsExclusive | App.tsx:27-30 | BUY and SELL guards never hold together, nor STRONG_BUY with STRONG_SELL or SELL, nor STRONG_SELL with BUY |
| Signals.DirectionPartition | components/SignalCard.tsx:114-115 | bullish and bearish are never both true; both are false exactly for NEUTRAL |
| Signals.DirectionOfClassification | components/SignalCard.tsx:114-115 | the overlay is bullish exactly when the STRONG_BUY or BUY guard holds, and bearish exactly when the STRONG_SELL or SELL guard holds, whatever the rule order |
| History.Push | App.tsx:105 | a push keeps a non-empty window's length; the newest point is last; every other point moves one place toward the front |
| History.PushIsAppendThenTrim | App.tsx:105 | a push on a non-empty window equals appending then dropping the head |
| History.SlidingWindow | App.tsx:105 | any run of pushes keeps the window length and leaves the last len points of old history followed by the pushed points |
| Market.Volatility | App.tsx:96-100 | the tick's volatility lies in [0.8, 1.2) times the base step |
| Market.NextPrice | App.tsx:21-24 | the price moves by at most half the volatility either way, strictly less upward for positive volatility, and not at all for the midpoint draw |
| Market.Clamp | App.tsx:109 | the clamped value lies in [lo, hi]; it is the input when that is in range, and the nearer bound otherwise |
| Market.ClampNonExpansive | App.tsx:108-112 | clamping never increases the absolute distance between two values |
| Market.NextRsi | App.tsx:108-109 | new RSI lies in [10, 90]; from an in-range value it moves by at most 2.5 |
| Market.NextStochastic | App.tsx:111-112 | new stochastic lies in [5, 95]; from an in-range value it moves by at most 4 |
| Market.ChangePercent | App.tsx:122-123 | the change is finite exactly when the reference is nonzero, and then change times reference equals 100 times the price difference |
| Market.TickPair | App.tsx:93-137 | one pair's tick succeeds exactly when its history has at least ten points; it then keeps the symbol, takes the price, RSI and stochastic steps with this tick's own draws, moves the price by at most 0.6 of the base step, slides the history to end in (now, newPrice), keeps both oscillators in their domains, takes the trend from the old 9th-from-last point and the change from the old second point, and stamps `now` |
| Market.Tick | App.tsx:92-138 | a snapshot tick succeeds exactly when every history has at least ten points; it then keeps the number of pairs and their order, and each pair is that pair's own tick |
| Market.TickKeepsPairs | App.tsx:127-136 | after a tick every pair keeps its symbol and position and has `lastUpdated = now` |
| Market.TickPreservesWellFormed | App.tsx:93-137 | on a snapshot with full histories and in-range oscillators a tick always succeeds and keeps both properties |
| Market.Simulate | App.tsx:91-139 | a run of consecutive ticks that does not throw keeps the number of pairs |
| Market.SimulationNeverThrows | App.tsx:91-139 | over any number of ticks from a snapshot with full histories and in-range oscillators, no tick throws |
| Market.SimulationStaysWellFormed | App.tsx:91-139 | over any number of ticks from such a snapshot the run completes, every history keeps 40 points, and RSI and stochastic stay in [10, 90] and [5, 95] |
| Session.RatePairs | App.tsx:54-63 | the rate-derived table has the fallback symbols in order, with EUR/USD, GBP/USD and NZD/USD the inverse rates, USD/JPY and USD/CHF the direct rates, and AUD/CAD, EUR/JPY and GBP/JPY the rate ratios (each stated as a product, without division) |
| Session.CrossRatesConsistent | App.tsx:54-63 | the derived EUR/JPY equals EUR/USD times USD/JPY, and GBP/JPY equals GBP/USD times USD/JPY |
| Session.SeedHistory | App.tsx:73 | a seeded history has 40 points, all at the base price; index 0 is stamped `now` and timestamps strictly decrease with index |
| Session.Initialise | App.tsx:41-79 | the rates flag is set exactly when a rate table arrived; on failure or a non-ok response every pair is seeded from the fallback table exactly; either way there are eight pairs with the fallback symbols, each with the seeded 40-point flat history stamped newest-first from `now`, change 0, RSI and stochastic 50, NEUTRAL and `lastUpdated = now` |
| Session.FallbackVolatilityClasses | App.tsx:96-97 | the three yen pairs of the fallback table take the 0.03 base step and the other five take 0.00008 |
| Session.MidpointTickFromSeed | App.tsx:93-125 | with every draw at the midpoint, a freshly seeded pair keeps its price, RSI 50 and stochastic 50, reports change 0 and classifies NEUTRAL |
| Session.MidpointTickOfFallbackSession | App.tsx:70-136 | after a failed rate request, one all-midpoint tick leaves EUR/USD at 1.05420 with change 0, both oscillators at 50 and NEUTRAL |
| ViewWindow.ZoomIn | components/SignalCard.tsx:39-42 | zoom-in removes five points but never goes below five, and leaves the offset alone |
| ViewWindow.ZoomOut | components/SignalCard.tsx:44-47 | zoom-out gives `min(len, size + 5)`: five points more while that fits, otherwise exactly `len`; the offset is left alone |
| ViewWindow.PanLeft | components/SignalCard.tsx:49-52 | pan-left gives `min(len - size, offset + 5)`: five points further back while that fits, otherwise exactly `len - size`, which is below the old offset when zoom-out left it past that bound |
| ViewWindow.PanRight | components/SignalCard.tsx:54-57 | pan-right gives `max(0, offset - 5)`: five points toward live from offset 5 or more, otherwise exactly 0; it changes nothing at the live edge, where its button is disabled |
| ViewWindow.ApplyKeepsSafe | components/SignalCard.tsx:39-63 | each of the five controls keeps 5 <= size <= len and 0 <= offset <= len - 5 |
| ViewWindow.RunKeepsSafe | components/SignalCard.tsx:39-63 | any click sequence from a safe window ends in a safe window |
| ViewWindow.ReachableViewsAreSafe | components/SignalCard.tsx:23-63 | every window reachable from (20, 0) is safe |
| ViewWindow.ZoomOutBreaksPanBound | components/SignalCard.tsx:44-52 | after four pan-lefts over 40 points, zoom-out gives (25, 20) with the offset past `len - size`, and the next pan-left gives offset 15 |
| ViewWindow.RepeatedZoomIn | components/SignalCard.tsx:39-42 | n zoom-ins give size max(5, size - 5n) |
| ViewWindow.HundredZoomInsReachFive | components/SignalCard.tsx:39-42 | a hundred zoom-ins from the initial window give size 5 |
| ViewWindow.RepeatedPanLeft | components/SignalCard.tsx:49-52 | from within the bound, n pan-lefts give offset min(len - size, offset + 5n) |
| ViewWindow.PanLeftStopsAtTwenty | components/SignalCard.tsx:49-52 | from (20, 0) over 40 points the offset never exceeds 20, and is 20 after four or more pan-lefts |
| ViewWindow.ResetShowsNewestTwenty | components/SignalCard.tsx:59-63 | reset from any window shows exactly the newest twenty points, at the live edge |
| ViewWindow.SliceIndex | components/SignalCard.tsx:35 | slice indices are clipped to [0, len]: in-range indices are kept, negative ones count from the end, indices past len give len, and indices before -len give 0 |
| ViewWindow.JsSlice | components/SignalCard.tsx:35 | with ordered in-range bounds, `slice` is the contiguous sub-sequence between them |
| ViewWindow.VisibleRangeInBounds | components/SignalCard.tsx:28-36 | for 0 <= offset <= len and size >= 0, 0 <= start <= end <= len |
| ViewWindow.SafeWindowSlice | components/SignalCard.tsx:28-36 | a safe window shows the contiguous points ending `offset` back, with between 5 and `size` of them (min(size, len - offset) in all) |
| ViewWindow.ReachableSliceNonEmpty | components/SignalCard.tsx:28-63 | for any click sequence, the chart of a history of at least 20 points shows at least five points |
| ViewWindow.LiveDotMarksNewestPoint | components/SignalCard.tsx:129-136 | whenever the live marker is drawn it sits on the newest history point |
| ViewWindow.LastVisibleIsNewestIffLive | components/SignalCard.tsx:129-136 | a safe window shows a suffix of the history, ending at the newest point, exactly when the offset is zero; only then can the live marker be drawn |

## Left out

- React state hooks, JSX, chart configuration and styling are rendering only.
- The 500 ms `setInterval`, its teardown and the pause toggle are timer scheduling. One tick is modelled as a function.
- The 800 ms overlay timeout is a rendering delay.
- The `fetch` of the rate service and its JSON parsing are network I/O. Their outcome is an input: failed, not ok, or a rate table. A body without a `rates` object throws inside the `try` and is covered by "failed".
- Session.Initialise: a rate table whose EUR, GBP, AUD or NZD rate is zero is excluded by its requires. The source would seed Infinity or NaN prices from it.
- A `rates` object that lacks any of the seven currencies is not representable, because `RateTable` has a field for each. The source would then still set the real-rates flag. It would seed NaN prices where EUR, GBP, AUD or NZD is missing. It would seed `undefined` or NaN prices where JPY, CAD or CHF is missing: USD/JPY, AUD/CAD, USD/CHF, EUR/JPY and GBP/JPY.
- `Date.now()` is read separately for each seeded point, for `lastUpdated` and for each pair's tick. The model uses one `now` per initialisation and one per tick, so it does not model the few milliseconds between those reads.
- IEEE-754 rounding, `toFixed`, and price and time formatting are left out. Arithmetic is exact `real` arithmetic.
- The header's settings popover and its `localStorage` persistence are UI and browser storage.
- The language-model market commentary is a remote foreign call.
- Telegram sending and its chat-id check are an external service plus `localStorage`.
- The chart colour derived from the sign of the change is rendering only.
- The history length used by zoom-out and pan-left is read at click time. The model fixes it per click sequence, which matches the source because every history keeps 40 points after seeding.
