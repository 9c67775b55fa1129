/** The portfolio management agent: it gathers, for every symbol that both
    analysts covered, the two signals, the current price and the share cap,
    asks the model for one decision per ticker, and falls back to holding
    every ticker when the model call fails in any way. */
module PortfolioManager {
  import opened Types
  import opened Llm
  import Technicals
  import Risk

  /** Python's `int()` on a float: truncation toward zero. */
  function Trunc(x: real): (n: int)
    ensures 0.0 <= x ==> n as real <= x < n as real + 1.0
    ensures x < 0.0 ==> n as real - 1.0 < x <= n as real
  {
    if x >= 0.0 then x.Floor else -((-x).Floor)
  }

  /** `max_shares[symbol]`: the whole number of units the position limit
      buys at the current price, or 0 when the price is not positive. */
  function MaxShares(positionLimit: real, currentPrice: real): (n: int)
    ensures currentPrice <= 0.0 ==> n == 0
    ensures currentPrice > 0.0 && positionLimit >= 0.0 ==>
      0 <= n && n as real * currentPrice <= positionLimit < (n + 1) as real * currentPrice
    ensures currentPrice > 0.0 && positionLimit < 0.0 ==>
      n <= 0 && (n - 1) as real * currentPrice < positionLimit <= n as real * currentPrice
  {
    if currentPrice > 0.0 then
      var q := positionLimit / currentPrice;
      var n := Trunc(q);
      ScaleBounds(n as real - 1.0, n as real, positionLimit, currentPrice);
      ScaleBounds(n as real, n as real + 1.0, positionLimit, currentPrice);
      n
    else 0
  }

  /** Bounds on a quotient by a positive price are bounds on the dividend after scaling. */
  lemma ScaleBounds(lo: real, hi: real, limit: real, price: real)
    requires price > 0.0
    ensures lo <= limit / price ==> lo * price <= limit
    ensures lo < limit / price ==> lo * price < limit
    ensures limit / price < hi ==> limit < hi * price
    ensures limit / price <= hi ==> limit <= hi * price
  {
    assert (limit / price) * price == limit;
  }

  /** A cap never buys more than the limit, and one more unit would exceed it. */
  lemma MaxSharesWithinLimit(riskEntry: RiskEntry)
    requires riskEntry.currentPrice > 0.0 && riskEntry.positionLimit >= 0.0
    ensures var n := MaxShares(riskEntry.positionLimit, riskEntry.currentPrice);
      0 <= n && n as real * riskEntry.currentPrice <= riskEntry.positionLimit
      && riskEntry.positionLimit - riskEntry.currentPrice < n as real * riskEntry.currentPrice
  {
  }

  /** `signals_by_ticker[symbol]`. */
  datatype TickerSignals = TickerSignals(technical: TechnicalSignal, risk: RiskEntry)

  /** What the prompt is formatted from. */
  datatype DecisionRequest = DecisionRequest(
    signalsByTicker: map<string, TickerSignals>,
    currentPrices: map<string, real>,
    maxShares: map<string, int>,
    cash: real,
    positions: seq<(string, Position)>,
    marginRequirement: real)

  /** The signals gathered for the symbols both analysts covered. */
  function SignalsByTicker(
    symbols: seq<string>,
    technical: map<string, TechnicalSignal>,
    risk: map<string, RiskEntry>): (m: map<string, TickerSignals>)
    ensures m.Keys == set s | s in symbols && s in technical && s in risk
    ensures forall s :: s in m ==> m[s] == TickerSignals(technical[s], risk[s])
  {
    if symbols == [] then map[]
    else
      var last := symbols[|symbols| - 1];
      var init := SignalsByTicker(symbols[..|symbols| - 1], technical, risk);
      assert symbols == symbols[..|symbols| - 1] + [last];
      if last in technical && last in risk then init[last := TickerSignals(technical[last], risk[last])]
      else init
  }

  lemma SignalsByTickerStep(
    symbols: seq<string>, i: nat,
    technical: map<string, TechnicalSignal>, risk: map<string, RiskEntry>)
    requires i < |symbols|
    ensures SignalsByTicker(symbols[..i + 1], technical, risk)
      == if symbols[i] in technical && symbols[i] in risk
         then SignalsByTicker(symbols[..i], technical, risk)[symbols[i] := TickerSignals(technical[symbols[i]], risk[symbols[i]])]
         else SignalsByTicker(symbols[..i], technical, risk)
  {
    assert symbols[..i + 1][..i] == symbols[..i];
  }

  /** The symbol loop of `portfolio_management_agent`: a symbol enters the
      three dictionaries exactly when both analysts reported on it. */
  method PrepareDecisionInputs(symbols: seq<string>, analystSignals: map<string, AnalystReport>)
    returns (signalsByTicker: map<string, TickerSignals>, currentPrices: map<string, real>, maxShares: map<string, int>)
    ensures signalsByTicker == SignalsByTicker(symbols, TechnicalIn(analystSignals), RiskIn(analystSignals))
    ensures currentPrices.Keys == signalsByTicker.Keys && maxShares.Keys == signalsByTicker.Keys
    ensures forall s :: s in currentPrices ==> currentPrices[s] == RiskIn(analystSignals)[s].currentPrice
    ensures forall s :: s in maxShares ==>
      maxShares[s] == MaxShares(RiskIn(analystSignals)[s].positionLimit, RiskIn(analystSignals)[s].currentPrice)
  {
    var technical := TechnicalIn(analystSignals);
    var risk := RiskIn(analystSignals);
    signalsByTicker, currentPrices, maxShares := map[], map[], map[];
    for i := 0 to |symbols|
      invariant signalsByTicker == SignalsByTicker(symbols[..i], technical, risk)
      invariant currentPrices.Keys == signalsByTicker.Keys && maxShares.Keys == signalsByTicker.Keys
      invariant forall s :: s in currentPrices ==> s in risk && currentPrices[s] == risk[s].currentPrice
      invariant forall s :: s in maxShares ==> s in risk && maxShares[s] == MaxShares(risk[s].positionLimit, risk[s].currentPrice)
    {
      SignalsByTickerStep(symbols, i, technical, risk);
      var symbol := symbols[i];
      if symbol in technical && symbol in risk {
        var riskData := risk[symbol];
        signalsByTicker := signalsByTicker[symbol := TickerSignals(technical[symbol], riskData)];
        currentPrices := currentPrices[symbol := riskData.currentPrice];
        maxShares := maxShares[symbol := MaxShares(riskData.positionLimit, riskData.currentPrice)];
      }
    }
    assert symbols[..|symbols|] == symbols;
  }

  const DefaultReasoning: string := "Error in portfolio management, defaulting to hold"

  /** `create_default_portfolio_output`: hold every ticker, with no quantity
      and no confidence. */
  function DefaultDecisions(tickers: seq<string>): (r: map<string, PortfolioDecision>)
    ensures r.Keys == set t | t in tickers
    ensures forall t :: t in r ==> r[t].action == Hold && r[t].quantity == 0 && r[t].confidence == 0.0
    ensures forall t :: t in r ==> r[t].reasoning == DefaultReasoning
  {
    map t | t in tickers :: PortfolioDecision(Hold, 0, 0.0, DefaultReasoning)
  }

  /** `generate_trading_decision`: the model's decisions when the call and
      the validation succeed, the all-hold default otherwise. It never
      raises, since a default factory is always given. */
  function GenerateTradingDecision<J>(
    tickers: seq<string>,
    request: DecisionRequest,
    backend: Backend<DecisionRequest>,
    loads: string -> Option<J>,
    isFalsy: J -> bool,
    validate: J -> Option<map<string, PortfolioDecision>>): (r: map<string, PortfolioDecision>)
    ensures var a := Attempt(request, backend, loads, isFalsy, validate);
      && (a.Ok? ==> r == a.value)
      && (a.Err? ==> r == DefaultDecisions(tickers))
  {
    var call := CallLlm(request, backend, loads, isFalsy, validate, 3, Some(DefaultDecisions(tickers)));
    call.outcome.value
  }

  /** Whatever goes wrong before a validated answer, no ticker is traded. */
  lemma FailedCallHoldsEverything<J>(
    tickers: seq<string>,
    request: DecisionRequest,
    backend: Backend<DecisionRequest>,
    loads: string -> Option<J>,
    isFalsy: J -> bool,
    validate: J -> Option<map<string, PortfolioDecision>>)
    requires !backend.init.Ready? || backend.invoke(request).None?
    ensures var r := GenerateTradingDecision(tickers, request, backend, loads, isFalsy, validate);
      r.Keys == (set t | t in tickers) && forall t :: t in r ==> r[t].action == Hold && r[t].quantity == 0
  {
  }

  /** `portfolio_management_agent`: the data gains or replaces `decisions`
      and keeps everything else. */
  method PortfolioManagementAgent<J>(
    data: StateData,
    symbols: seq<string>,
    portfolio: Portfolio,
    backend: Backend<DecisionRequest>,
    loads: string -> Option<J>,
    isFalsy: J -> bool,
    validate: J -> Option<map<string, PortfolioDecision>>)
    returns (newData: StateData)
    ensures newData.Keys == data.Keys + {DecisionsKey}
    ensures forall k :: k in data && k != DecisionsKey ==> newData[k] == data[k]
    ensures newData[DecisionsKey].Decisions?
    ensures var request := Request(symbols, SignalsIn(data), portfolio);
      newData[DecisionsKey].decisions == GenerateTradingDecision(symbols, request, backend, loads, isFalsy, validate)
  {
    var signalsByTicker, currentPrices, maxShares := PrepareDecisionInputs(symbols, SignalsIn(data));
    var request := DecisionRequest(signalsByTicker, currentPrices, maxShares,
      portfolio.cash, portfolio.positions, portfolio.marginRequirement);
    var result := GenerateTradingDecision(symbols, request, backend, loads, isFalsy, validate);
    assert request == Request(symbols, SignalsIn(data), portfolio);
    var decisionsDict := map symbol | symbol in result :: result[symbol];
    assert decisionsDict == result;
    newData := data[DecisionsKey := Decisions(decisionsDict)];
  }

  /** The request the agent builds from the analyst signals and the portfolio. */
  function Request(symbols: seq<string>, analystSignals: map<string, AnalystReport>, portfolio: Portfolio): (r: DecisionRequest)
    ensures r.signalsByTicker == SignalsByTicker(symbols, TechnicalIn(analystSignals), RiskIn(analystSignals))
    ensures r.currentPrices.Keys == r.signalsByTicker.Keys && r.maxShares.Keys == r.signalsByTicker.Keys
    ensures forall s :: s in r.currentPrices ==> r.currentPrices[s] == r.signalsByTicker[s].risk.currentPrice
    ensures forall s :: s in r.maxShares ==>
      r.maxShares[s] == MaxShares(r.signalsByTicker[s].risk.positionLimit, r.signalsByTicker[s].risk.currentPrice)
    ensures r.cash == portfolio.cash && r.positions == portfolio.positions && r.marginRequirement == portfolio.marginRequirement
  {
    var signals := SignalsByTicker(symbols, TechnicalIn(analystSignals), RiskIn(analystSignals));
    DecisionRequest(
      signals,
      map s | s in signals :: signals[s].risk.currentPrice,
      map s | s in signals :: MaxShares(signals[s].risk.positionLimit, signals[s].risk.currentPrice),
      portfolio.cash, portfolio.positions, portfolio.marginRequirement)
  }

  /** The crypto workflow runs the technical agent, then the risk manager,
      then this agent: whatever `analyst_signals` held before the run, this
      agent sees exactly the two reports of the run. */
  lemma PipelineSignals(data: StateData, technical: map<string, TechnicalSignal>, risk: map<string, RiskEntry>)
    ensures var d := Risk.WithRiskReport(Technicals.WithTechnicalReport(data, technical), risk);
      && SignalsIn(d).Keys == {TechnicalAgentKey, RiskManagerKey}
      && TechnicalIn(SignalsIn(d)) == technical && RiskIn(SignalsIn(d)) == risk
  {
    var d1 := Technicals.WithTechnicalReport(data, technical);
    assert TechnicalAgentKey in SignalsIn(d1);
  }
}
