/** Value types shared by the three analysis stages and the decision step:
    indicator snapshots, technical signals, risk entries, trade decisions and
    the keyed state data that the stages pass along. */
module Types {

  datatype Option<+T> = None | Some(value: T)

  datatype Result<+T, +E> = Ok(value: T) | Err(error: E)

  /** The sampling intervals the technical agent fetches, in its iteration order. */
  datatype Timeframe = H1 | H4 | D1

  /** The last value of each indicator series of one timeframe. */
  datatype Indicators = Indicators(
    rsi: real,
    macd: real,
    macdSignal: real,
    bbUpper: real,
    bbMiddle: real,
    bbLower: real,
    adx: real)

  datatype MacdVerdict = MacdBullish | MacdBearish
  datatype BandPosition = Oversold | Overbought | Normal
  datatype TrendStrength = Strong | Weak

  /** One entry of `timeframe_analysis`: the classification of one timeframe. */
  datatype TimeframeAnalysis = TimeframeAnalysis(
    rsi: real,
    macd: MacdVerdict,
    bb: BandPosition,
    trend: TrendStrength,
    adx: real)

  datatype Direction = Bullish | Bearish | Neutral

  /** The per-symbol output of the technical agent. `reasoning` keeps, in
      order, what each rationale line is formatted from. */
  datatype TechnicalSignal = TechnicalSignal(
    signal: Direction,
    confidence: real,
    reasoning: seq<(Timeframe, TimeframeAnalysis)>,
    timeframes: seq<Timeframe>)

  /** An annualised standard deviation of log returns is never negative. */
  type Volatility = v: real | v >= 0.0

  datatype MarketData = MarketData(weightedAvgPrice: real)

  datatype Position = Position(amount: real, avgPrice: real)

  /** `positions` is the source's dict, as its entries in insertion order.
      `marginRequirement` stands for `portfolio.get('margin_requirement', 0)`:
      a portfolio without that key, such as the one the crypto runner builds,
      has 0 here. */
  datatype Portfolio = Portfolio(
    cash: real,
    positions: seq<(string, Position)>,
    marginRequirement: real)

  /** The per-symbol output of the risk agent. */
  datatype RiskEntry = RiskEntry(
    positionLimit: real,
    stopLoss: real,
    takeProfit: real,
    volatility: Volatility,
    marketData: MarketData,
    currentPrice: real)

  datatype TradeAction = Buy | Sell | Short | Cover | Hold

  datatype PortfolioDecision = PortfolioDecision(
    action: TradeAction,
    quantity: int,
    confidence: real,
    reasoning: string)

  /** What one analyst contributes under its key of `analyst_signals`. */
  datatype AnalystReport =
    | TechnicalReport(technical: map<string, TechnicalSignal>)
    | RiskReport(risk: map<string, RiskEntry>)

  /** The values that the state's `data` dictionary holds. */
  datatype DataValue =
    | SymbolList(symbols: seq<string>)
    | PortfolioValue(portfolio: Portfolio)
    | Date(text: string)
    | AnalystSignals(reports: map<string, AnalystReport>)
    | Decisions(decisions: map<string, PortfolioDecision>)

  type StateData = map<string, DataValue>

  const AnalystSignalsKey: string := "analyst_signals"
  const DecisionsKey: string := "decisions"
  const TechnicalAgentKey: string := "crypto_technical_agent"
  const RiskManagerKey: string := "crypto_risk_manager"

  /** `data.get("analyst_signals", {})`. */
  function SignalsIn(data: StateData): map<string, AnalystReport>
  {
    if AnalystSignalsKey in data && data[AnalystSignalsKey].AnalystSignals?
    then data[AnalystSignalsKey].reports
    else map[]
  }

  /** `analyst_signals.get("crypto_technical_agent", {})`. */
  function TechnicalIn(signals: map<string, AnalystReport>): map<string, TechnicalSignal>
  {
    if TechnicalAgentKey in signals && signals[TechnicalAgentKey].TechnicalReport?
    then signals[TechnicalAgentKey].technical
    else map[]
  }

  /** `analyst_signals.get("crypto_risk_manager", {})`. */
  function RiskIn(signals: map<string, AnalystReport>): map<string, RiskEntry>
  {
    if RiskManagerKey in signals && signals[RiskManagerKey].RiskReport?
    then signals[RiskManagerKey].risk
    else map[]
  }

  /** Python's `min` on two numbers. */
  function Min(a: real, b: real): (r: real)
    ensures r <= a && r <= b && (r == a || r == b)
  {
    if a <= b then a else b
  }

  /** Python's `max` on two numbers. */
  function Max(a: real, b: real): (r: real)
    ensures r >= a && r >= b && (r == a || r == b)
  {
    if a >= b then a else b
  }
}
