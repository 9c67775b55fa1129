/** The crypto risk manager: a volatility-scaled position limit, a stop loss
    floored at half the price, an uncapped take profit, and the merge of the
    risk report into `analyst_signals`. */
module Risk {
  import opened Types

  /** The base risk coefficient the agent passes to the position limit. */
  const BaseRisk: real := 0.02

  /** Added to the volatility so that a volatility of 0 does not divide by zero. */
  const Epsilon: real := 0.0001

  /** `calculate_position_limit`: the portfolio value times the base risk
      divided by the volatility plus epsilon; there is no upper clamp. */
  function PositionLimit(portfolioValue: real, volatility: Volatility, baseRisk: real): (r: real)
    ensures r * (volatility + Epsilon) == portfolioValue * baseRisk
    ensures portfolioValue >= 0.0 && baseRisk >= 0.0 ==> r >= 0.0
  {
    var riskAdjusted := baseRisk / (volatility + Epsilon);
    assert riskAdjusted * (volatility + Epsilon) == baseRisk;
    portfolioValue * riskAdjusted
  }

  /** At volatility 0 the limit is the portfolio value times the base risk
      times 10000: the growth as volatility vanishes is not capped. */
  lemma PositionLimitAtZeroVolatility(portfolioValue: real, baseRisk: real)
    ensures PositionLimit(portfolioValue, 0.0, baseRisk) == portfolioValue * baseRisk * 10000.0
  {
    var r := PositionLimit(portfolioValue, 0.0, baseRisk);
    assert r * Epsilon == portfolioValue * baseRisk;
  }

  /** With a positive value times risk, a higher volatility gives a strictly
      lower limit. */
  lemma PositionLimitDecreasing(portfolioValue: real, v1: Volatility, v2: Volatility, baseRisk: real)
    requires portfolioValue * baseRisk > 0.0 && v1 < v2
    ensures PositionLimit(portfolioValue, v1, baseRisk) > PositionLimit(portfolioValue, v2, baseRisk)
  {
    var r1 := PositionLimit(portfolioValue, v1, baseRisk);
    var r2 := PositionLimit(portfolioValue, v2, baseRisk);
    assert r1 * (v1 + Epsilon) == r2 * (v2 + Epsilon);
    assert r2 > 0.0;
    assert r1 * (v1 + Epsilon) > r2 * (v1 + Epsilon);
  }

  /** `calculate_stop_loss`: the price lowered by 1.5 times the volatility,
      never by more than half. */
  function StopLoss(currentPrice: real, volatility: Volatility): (r: real)
    ensures currentPrice >= 0.0 ==> currentPrice * 0.5 <= r <= currentPrice
    ensures volatility * 1.5 >= 0.5 ==> r == currentPrice * 0.5
    ensures currentPrice > 0.0 && volatility * 1.5 < 0.5 ==> r == currentPrice - currentPrice * volatility * 1.5
  {
    var stopLoss := currentPrice * (1.0 - Min(volatility * 1.5, 0.5));
    Max(stopLoss, currentPrice * 0.5)
  }

  /** `calculate_take_profit`: the price raised by twice the volatility, with no cap. */
  function TakeProfit(currentPrice: real, volatility: Volatility): (r: real)
    ensures currentPrice >= 0.0 ==> r >= currentPrice
    ensures currentPrice > 0.0 && volatility > 0.0 ==> r > currentPrice
    ensures volatility == 0.0 ==> r == currentPrice
    ensures currentPrice > 0.0 ==> r - currentPrice == 2.0 * volatility * currentPrice
  {
    currentPrice * (1.0 + volatility * 2.0)
  }

  /** The value of the held positions at their average entry prices. */
  function HoldingsValue(positions: seq<(string, Position)>): real
  {
    if positions == [] then 0.0
    else
      var last := positions[|positions| - 1].1;
      HoldingsValue(positions[..|positions| - 1]) + last.amount * last.avgPrice
  }

  /** Long positions at non-negative prices are worth a non-negative amount. */
  lemma {:induction false} HoldingsValueNonNegative(positions: seq<(string, Position)>)
    requires forall i :: 0 <= i < |positions| ==> positions[i].1.amount >= 0.0 && positions[i].1.avgPrice >= 0.0
    ensures HoldingsValue(positions) >= 0.0
    decreases |positions|
  {
    if positions != [] {
      var init := positions[..|positions| - 1];
      var last := positions[|positions| - 1].1;
      assert forall i :: 0 <= i < |init| ==> init[i] == positions[i];
      HoldingsValueNonNegative(init);
      assert last.amount * last.avgPrice >= 0.0;
    }
  }

  /** The valuation loop of `crypto_risk_manager`: cash plus every position's
      amount times its average price. */
  method PortfolioValue(portfolio: Portfolio) returns (totalValue: real)
    ensures totalValue == portfolio.cash + HoldingsValue(portfolio.positions)
  {
    var positions := portfolio.positions;
    totalValue := portfolio.cash;
    for i := 0 to |positions|
      invariant totalValue == portfolio.cash + HoldingsValue(positions[..i])
    {
      assert positions[..i + 1][..i] == positions[..i];
      var pos := positions[i].1;
      totalValue := totalValue + pos.amount * pos.avgPrice;
    }
    assert positions[..|positions|] == positions;
  }

  /** Taking one position out lowers the holdings by exactly its value. */
  lemma {:induction false} HoldingsValueRemove(positions: seq<(string, Position)>, i: nat)
    requires i < |positions|
    ensures HoldingsValue(positions)
      == HoldingsValue(positions[..i] + positions[i + 1..]) + positions[i].1.amount * positions[i].1.avgPrice
  {
    var n := |positions|;
    if i < n - 1 {
      var init := positions[..n - 1];
      HoldingsValueRemove(init, i);
      var rest := positions[..i] + positions[i + 1..];
      assert rest[..|rest| - 1] == init[..i] + init[i + 1..];
      assert rest[|rest| - 1] == positions[n - 1];
    } else {
      assert positions[..i] + positions[i + 1..] == positions[..n - 1];
    }
  }

  lemma MultisetCancel<T>(a: multiset<T>, b: multiset<T>, x: T)
    requires a + multiset{x} == b + multiset{x}
    ensures a == b
  {
    forall y ensures a[y] == b[y] {
      assert (a + multiset{x})[y] == (b + multiset{x})[y];
    }
  }

  /** Where the last position of `p1` sits in its permutation `p2`. */
  lemma MatchLast(p1: seq<(string, Position)>, p2: seq<(string, Position)>) returns (i: nat)
    requires p1 != [] && multiset(p1) == multiset(p2)
    ensures i < |p2| && p2[i] == p1[|p1| - 1]
    ensures multiset(p1[..|p1| - 1]) == multiset(p2[..i] + p2[i + 1..])
  {
    var n := |p1|;
    var init := p1[..n - 1];
    var x := p1[n - 1];
    assert p1 == init + [x];
    assert multiset(p1) == multiset(init) + multiset{x};
    assert x in multiset(p2);
    assert x in p2;
    i :| 0 <= i < |p2| && p2[i] == x;
    var before, after := p2[..i], p2[i + 1..];
    assert p2 == before + [x] + after;
    assert multiset(p2) == multiset(before) + multiset{x} + multiset(after);
    assert multiset(before + after) == multiset(before) + multiset(after);
    MultisetCancel(multiset(init), multiset(before + after), x);
  }

  /** The valuation does not depend on the order in which the positions
      dict yields its entries. */
  lemma {:induction false} HoldingsValuePermutation(p1: seq<(string, Position)>, p2: seq<(string, Position)>)
    requires multiset(p1) == multiset(p2)
    ensures HoldingsValue(p1) == HoldingsValue(p2)
  {
    if p1 == [] {
      assert |p2| == |multiset(p2)| == 0;
    } else {
      var i := MatchLast(p1, p2);
      HoldingsValuePermutation(p1[..|p1| - 1], p2[..i] + p2[i + 1..]);
      HoldingsValueRemove(p2, i);
    }
  }

  /** The portfolio the runner starts with, every amount 0, is worth its cash. */
  lemma {:induction false} EmptyPositionsWorthNothing(positions: seq<(string, Position)>)
    requires forall k :: 0 <= k < |positions| ==> positions[k].1.amount == 0.0
    ensures HoldingsValue(positions) == 0.0
  {
    if positions != [] {
      EmptyPositionsWorthNothing(positions[..|positions| - 1]);
    }
  }

  /** One symbol's `risk_analysis` entry; the current price is the market
      data's weighted average price. */
  function RiskEntryFor(volatility: Volatility, marketData: MarketData, totalValue: real): (e: RiskEntry)
    ensures e.currentPrice == marketData.weightedAvgPrice && e.volatility == volatility
    ensures e.currentPrice >= 0.0 ==> e.currentPrice * 0.5 <= e.stopLoss <= e.currentPrice <= e.takeProfit
    ensures e.positionLimit * (volatility + Epsilon) == totalValue * BaseRisk
    ensures totalValue >= 0.0 ==> e.positionLimit >= 0.0
    ensures e.stopLoss == StopLoss(marketData.weightedAvgPrice, volatility)
    ensures e.takeProfit == TakeProfit(marketData.weightedAvgPrice, volatility)
    ensures e.marketData == marketData
  {
    var price := marketData.weightedAvgPrice;
    RiskEntry(
      PositionLimit(totalValue, volatility, BaseRisk),
      StopLoss(price, volatility),
      TakeProfit(price, volatility),
      volatility,
      marketData,
      price)
  }

  /** The `risk_analysis` dict: an entry for every symbol whose price history
      is non-empty, all sized on the same portfolio value. */
  function RiskAnalysis(
    symbols: seq<string>,
    volatilityOf: string -> Option<Volatility>,
    marketDataOf: string -> MarketData,
    totalValue: real): (m: map<string, RiskEntry>)
    ensures m.Keys == set s | s in symbols && volatilityOf(s).Some?
    ensures forall s :: s in m ==> m[s] == RiskEntryFor(volatilityOf(s).value, marketDataOf(s), totalValue)
  {
    if symbols == [] then map[]
    else
      var last := symbols[|symbols| - 1];
      var init := RiskAnalysis(symbols[..|symbols| - 1], volatilityOf, marketDataOf, totalValue);
      assert symbols == symbols[..|symbols| - 1] + [last];
      match volatilityOf(last)
      case None => init
      case Some(v) => init[last := RiskEntryFor(v, marketDataOf(last), totalValue)]
  }

  lemma RiskAnalysisStep(
    symbols: seq<string>, i: nat,
    volatilityOf: string -> Option<Volatility>, marketDataOf: string -> MarketData, totalValue: real)
    requires i < |symbols|
    ensures RiskAnalysis(symbols[..i + 1], volatilityOf, marketDataOf, totalValue)
      == match volatilityOf(symbols[i])
         case None => RiskAnalysis(symbols[..i], volatilityOf, marketDataOf, totalValue)
         case Some(v) => RiskAnalysis(symbols[..i], volatilityOf, marketDataOf, totalValue)[symbols[i] := RiskEntryFor(v, marketDataOf(symbols[i]), totalValue)]
  {
    assert symbols[..i + 1][..i] == symbols[..i];
  }

  /** The returned data: `analyst_signals` keeps every earlier report and
      gains or replaces only the risk report; every other data key is kept. */
  function WithRiskReport(data: StateData, report: map<string, RiskEntry>): (r: StateData)
    ensures r.Keys == data.Keys + {AnalystSignalsKey}
    ensures forall k :: k in data && k != AnalystSignalsKey ==> r[k] == data[k]
    ensures SignalsIn(r).Keys == SignalsIn(data).Keys + {RiskManagerKey}
    ensures forall k :: k in SignalsIn(data) && k != RiskManagerKey ==> SignalsIn(r)[k] == SignalsIn(data)[k]
    ensures RiskIn(SignalsIn(r)) == report
  {
    data[AnalystSignalsKey := AnalystSignals(SignalsIn(data)[RiskManagerKey := RiskReport(report)])]
  }

  /** The body of the symbol loop for a symbol with price history: value
      the portfolio and derive the limit, stop loss and take profit. */
  method AssessSymbol(portfolio: Portfolio, volatility: Volatility, marketData: MarketData)
    returns (entry: RiskEntry)
    ensures entry == RiskEntryFor(volatility, marketData, portfolio.cash + HoldingsValue(portfolio.positions))
  {
    var totalValue := PortfolioValue(portfolio);
    var positionLimit := PositionLimit(totalValue, volatility, BaseRisk);
    var stopLoss := StopLoss(marketData.weightedAvgPrice, volatility);
    var takeProfit := TakeProfit(marketData.weightedAvgPrice, volatility);
    entry := RiskEntry(positionLimit, stopLoss, takeProfit, volatility, marketData, marketData.weightedAvgPrice);
  }

  /** `crypto_risk_manager`: skips the symbols whose price history is empty,
      values the portfolio, and records limits, stop loss and take profit. */
  method RiskManager(
    data: StateData,
    symbols: seq<string>,
    portfolio: Portfolio,
    volatilityOf: string -> Option<Volatility>,
    marketDataOf: string -> MarketData)
    returns (newData: StateData)
    ensures newData == WithRiskReport(data,
      RiskAnalysis(symbols, volatilityOf, marketDataOf, portfolio.cash + HoldingsValue(portfolio.positions)))
  {
    ghost var value := portfolio.cash + HoldingsValue(portfolio.positions);
    var riskAnalysis: map<string, RiskEntry> := map[];
    for i := 0 to |symbols|
      invariant riskAnalysis == RiskAnalysis(symbols[..i], volatilityOf, marketDataOf, value)
    {
      RiskAnalysisStep(symbols, i, volatilityOf, marketDataOf, value);
      var symbol := symbols[i];
      var df := volatilityOf(symbol);
      if df.None? {
        continue;
      }
      var entry := AssessSymbol(portfolio, df.value, marketDataOf(symbol));
      riskAnalysis := riskAnalysis[symbol := entry];
    }
    assert symbols[..|symbols|] == symbols;
    newData := WithRiskReport(data, riskAnalysis);
  }
}
