/** The five-way trading signal and its classifier. */
module Signals {

  datatype Signal = StrongBuy | Buy | Neutral | Sell | StrongSell

  /** The guard of each classification rule; the NEUTRAL rule is the catch-all. */
  predicate Fires(s: Signal, rsi: real, stoch: real, trend: real)
  {
    match s
    case StrongBuy => rsi < 30.0 && stoch < 20.0
    case StrongSell => rsi > 70.0 && stoch > 80.0
    case Buy => rsi < 45.0 && trend > 0.0
    case Sell => rsi > 55.0 && trend < 0.0
    case Neutral => true
  }

  /** The position of each rule in the classifier's evaluation order. */
  function Rank(s: Signal): nat
  {
    match s
    case StrongBuy => 0
    case StrongSell => 1
    case Buy => 2
    case Sell => 3
    case Neutral => 4
  }

  /** The result is the first rule, in evaluation order, whose guard holds. */
  ghost predicate FirstMatch(s: Signal, rsi: real, stoch: real, trend: real)
  {
    Fires(s, rsi, stoch, trend) && forall t :: Rank(t) < Rank(s) ==> !Fires(t, rsi, stoch, trend)
  }

  /** `calculateSignal`: first match wins. */
  function CalculateSignal(rsi: real, stoch: real, trend: real): (s: Signal)
    ensures FirstMatch(s, rsi, stoch, trend)
  {
    if rsi < 30.0 && stoch < 20.0 then StrongBuy
    else if rsi > 70.0 && stoch > 80.0 then StrongSell
    else if rsi < 45.0 && trend > 0.0 then Buy
    else if rsi > 55.0 && trend < 0.0 then Sell
    else Neutral
  }

  /** First-match-wins determines the signal: no other signal satisfies it. */
  lemma FirstMatchIsUnique(s: Signal, rsi: real, stoch: real, trend: real)
    ensures FirstMatch(s, rsi, stoch, trend) <==> s == CalculateSignal(rsi, stoch, trend)
  {
    var c := CalculateSignal(rsi, stoch, trend);
    if FirstMatch(s, rsi, stoch, trend) {
      assert Rank(c) <= Rank(s) by { assert Fires(s, rsi, stoch, trend); }
      assert Rank(s) <= Rank(c) by { assert Fires(c, rsi, stoch, trend); }
    }
  }

  /** Oversold on both oscillators gives STRONG_BUY whatever the trend, even where BUY's guard also holds. */
  lemma StrongBuyIgnoresTrend(rsi: real, stoch: real, trend: real)
    requires rsi < 30.0 && stoch < 20.0
    ensures CalculateSignal(rsi, stoch, trend) == StrongBuy
    ensures trend > 0.0 ==> Fires(Buy, rsi, stoch, trend)
  {
  }

  /** The worked example: (25, 15, +1) classifies as STRONG_BUY, not BUY. */
  lemma StrongBuyExample()
    ensures CalculateSignal(25.0, 15.0, 1.0) == StrongBuy
  {
  }

  /** NEUTRAL is returned exactly when none of the four guards holds. */
  lemma NeutralIffNoGuard(rsi: real, stoch: real, trend: real)
    ensures CalculateSignal(rsi, stoch, trend) == Neutral <==>
      forall s :: s != Neutral ==> !Fires(s, rsi, stoch, trend)
  {
    var c := CalculateSignal(rsi, stoch, trend);
    if c != Neutral {
      assert Fires(c, rsi, stoch, trend);
    } else {
      forall s | s != Neutral
        ensures !Fires(s, rsi, stoch, trend)
      {
        assert Rank(s) < Rank(Neutral);
      }
    }
  }

  /** The opposite-direction guards never hold together, so only same-direction rules compete. */
  lemma OppositeGuardsExclusive(rsi: real, stoch: real, trend: real)
    ensures !(Fires(Buy, rsi, stoch, trend) && Fires(Sell, rsi, stoch, trend))
    ensures !(Fires(StrongBuy, rsi, stoch, trend) && Fires(StrongSell, rsi, stoch, trend))
    ensures !(Fires(StrongBuy, rsi, stoch, trend) && Fires(Sell, rsi, stoch, trend))
    ensures !(Fires(StrongSell, rsi, stoch, trend) && Fires(Buy, rsi, stoch, trend))
  {
  }

  /** `isBullish` on the trend overlay. */
  predicate IsBullish(s: Signal)
  {
    s == StrongBuy || s == Buy
  }

  /** `isBearish` on the trend overlay. */
  predicate IsBearish(s: Signal)
  {
    s == StrongSell || s == Sell
  }

  /** The overlay shows exactly one of rise, fall or neutral, and neutral only for NEUTRAL. */
  lemma DirectionPartition(s: Signal)
    ensures !(IsBullish(s) && IsBearish(s))
    ensures !IsBullish(s) && !IsBearish(s) <==> s == Neutral
  {
  }

  /** The overlay's direction does not depend on the rule order: bullish exactly when a buy guard holds. */
  lemma DirectionOfClassification(rsi: real, stoch: real, trend: real)
    ensures IsBullish(CalculateSignal(rsi, stoch, trend)) <==>
      Fires(StrongBuy, rsi, stoch, trend) || Fires(Buy, rsi, stoch, trend)
    ensures IsBearish(CalculateSignal(rsi, stoch, trend)) <==>
      Fires(StrongSell, rsi, stoch, trend) || Fires(Sell, rsi, stoch, trend)
  {
  }
}
