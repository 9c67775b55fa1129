# Crypto decision pipeline of ai-hedge-fund, in Dafny

This project models the crypto trading pipeline of ai-hedge-fund. Three
agents run in order over a shared `data` dictionary. The technical agent
classifies RSI, MACD, Bollinger and ADX readings on the 1h, 4h and 1d
timeframes and turns them into a weighted bullish/bearish/neutral signal
with a confidence. The risk manager sizes a volatility-scaled position
limit, a stop loss and a take profit for each symbol. The portfolio manager
gathers both reports per symbol, computes how many units each limit buys,
and asks a language model for one decision per ticker. When the model call
fails in any way, every ticker falls back to a hold. The model also covers
the helpers around that call: the model call's fallback policy, the JSON
extraction used for Deepseek responses, the stable ordering of analyst
sections, the split of backtest rows, and the colour of a trade action.

Files, one module each:

- `types.dfy` (`Types`): the shared values, the state's `data` dictionary as
  a `map<string, DataValue>`, and `Option`/`Result`.
- `text.dfy` (`Text`): the Python `str` operations the core relies on
  (`find`, `rfind`, slicing, `strip`, `upper`).
- `technicals.dfy` (`Technicals`): `crypto_technical_agent` and
  `generate_trading_signal`.
- `risk.dfy` (`Risk`): the three risk formulas and `crypto_risk_manager`.
- `llm.dfy` (`Llm`): `call_llm` and `extract_json_from_deepseek_response`.
- `portfolio.dfy` (`PortfolioManager`): `portfolio_management_agent`, the
  default factory of `generate_trading_decision`, and the hand-over between
  the three agents.
- `display.dfy` (`Display`): `sort_analyst_signals`, the row split of
  `print_backtest_results` and the action colours of `format_backtest_row`.

The loops of the source are methods with loop invariants. Each method is
proved equal to a specification function, and the properties are proved
about that function. Market data, indicator values, volatility, the model
backend, `json.loads` and pydantic validation are parameters. Arithmetic is
exact `real` arithmetic.

## Model

| member | source | states |
|---|---|---|
| Technicals.Classify | src/agents/crypto_technicals.py:95-109 | MACD is bearish exactly when the MACD line does not exceed its signal line. The band position compares the middle band, not the close, with the outer bands: normal exactly when the middle lies between them. Trend is strong exactly when ADX exceeds 25. |
| Technicals.Analyze | src/agents/crypto_technicals.py:93-109 | The per-timeframe analysis keeps the timeframes of the input in their order and classifies each snapshot. |
| Technicals.Weight | src/agents/crypto_technicals.py:131 | The primary timeframe weighs 1.0 and every other timeframe 0.5. |
| Technicals.BullishVotes | src/agents/crypto_technicals.py:134-147 | A timeframe's bullish votes lie in [0, 3w]: 3w when RSI is below 30, MACD is bullish and the band position is oversold, and 0 when none of the three holds. |
| Technicals.BearishVotes | src/agents/crypto_technicals.py:134-147 | A timeframe's bearish votes lie in [0, 3w]: 3w when RSI is above 70, MACD is bearish and the band position is overbought, and 0 when none of the three holds. |
| Technicals.TimeframeVotes | src/agents/crypto_technicals.py:134-147 | The two sides together receive exactly w for the MACD, plus w for an RSI outside [30, 70], plus w for a band position outside the bands, so each indicator votes for at most one side. A bullish MACD, RSI below 30 or an oversold position votes bullish. A bearish MACD, RSI above 70 or an overbought position votes bearish. |
| Technicals.TotalWeightCounts | src/agents/crypto_technicals.py:129-132 | The total weight is 0.5 per analysed timeframe plus 0.5 per occurrence of the primary timeframe. |
| Technicals.TotalWeightOfDistinct | src/agents/crypto_technicals.py:129-132 | With distinct timeframes that include the primary one, k timeframes weigh 1.0 + 0.5·(k−1) in total. |
| Technicals.TotalWeightWithPrimary | src/agents/crypto_technicals.py:131-132 | When the primary timeframe is present, the total weight is at least 1, so the normalisation never divides by zero. |
| Technicals.TotalWeightBounds | src/agents/crypto_technicals.py:129-132 | The total weight of k timeframes lies between 0.5·k and k. |
| Technicals.ScoresBounded | src/agents/crypto_technicals.py:125-147 | `BullishScore` and `BearishScore`, the two accumulated scores, each lie in [0, 3·total weight], so their difference lies within three times the total weight. |
| Technicals.Strength | src/agents/crypto_technicals.py:150 | The normalised signal strength lies in [−3, 3]. |
| Technicals.Decide | src/agents/crypto_technicals.py:152-161 | The signal is bullish iff strength > 0.2, bearish iff strength < −0.2, and neutral iff strength is in [−0.2, 0.2]. Confidence is min(100, 50·|strength| + 50) for a direction, which lies in (60, 100], and exactly 50 for neutral. |
| Technicals.Synthesize | src/agents/crypto_technicals.py:87-167 | The signal fails with a missing-timeframe error exactly when the primary timeframe has no entry. Otherwise the direction and confidence are `Decide` of the weighted strength, so they follow the ±0.2 thresholds and the confidence formula, and the reasoning covers every analysed timeframe in order. |
| Technicals.WeighTimeframes | src/agents/crypto_technicals.py:125-147 | The scoring loop yields exactly the bullish score, the bearish score and the total weight of the analysis. |
| Technicals.GenerateTradingSignal | src/agents/crypto_technicals.py:87-167 | The method with its three loops returns exactly `Synthesize`. |
| Technicals.Available | src/agents/crypto_technicals.py:26-40 | A timeframe is in a symbol's signals exactly when it is fetched and its data is non-empty, and its indicators are that fetch's. |
| Technicals.AvailableInOrder | src/agents/crypto_technicals.py:16-40 | Fetching over 1h, 4h, 1d yields the available timeframes strictly in that order. |
| Technicals.AvailableTimeframes | src/agents/crypto_technicals.py:28-44 | The `timeframes` list holds exactly the timeframes with data, in 1h, 4h, 1d order, with no repeats. |
| Technicals.AvailableWeight | src/agents/crypto_technicals.py:28-44 | When the 1h data exists, the signals of k timeframes weigh exactly 1.0 + 0.5·(k−1). |
| Technicals.CollectSignals | src/agents/crypto_technicals.py:26-40 | The inner fetch loop with `continue` builds exactly `Available` over 1h, 4h, 1d. |
| Technicals.SymbolSignal | src/agents/crypto_technicals.py:43-44 | A symbol with 1h data gets a signal without a KeyError. Its signal and confidence are those `Synthesize` decides from the available timeframes. Its `timeframes` are the analysed timeframes, in order, and its reasoning covers each of them. |
| Technicals.TechnicalAnalysis | src/agents/crypto_technicals.py:23-46 | The report has one entry per symbol: the synthesised signal with the analysed timeframes attached. |
| Technicals.TechnicalAnalysisStep | src/agents/crypto_technicals.py:43-46 | One more symbol adds exactly its own entry to the report. |
| Technicals.WithTechnicalReport | src/agents/crypto_technicals.py:48-56 | Every other data key is kept. `analyst_signals` is replaced by a map holding only the technical report. |
| Technicals.TechnicalAgent | src/agents/crypto_technicals.py:8-56 | The agent succeeds iff every symbol has 1h data. Otherwise it fails with the primary-timeframe KeyError. On success the new data is the technical report merged as above. |
| Types.Min | src/agents/crypto_risk_manager.py:20 | `min` is a lower bound of both arguments and equals one of them. |
| Types.Max | src/agents/crypto_risk_manager.py:21 | `max` is an upper bound of both arguments and equals one of them. |
| Risk.PositionLimit | src/agents/crypto_risk_manager.py:11-15 | The limit times (volatility + 0.0001) equals value times base risk. It is non-negative for non-negative value and base risk. |
| Risk.PositionLimitAtZeroVolatility | src/agents/crypto_risk_manager.py:14-15 | At volatility 0 the limit is value·base_risk·10000: no clamp. |
| Risk.PositionLimitDecreasing | src/agents/crypto_risk_manager.py:14-15 | When value·base_risk > 0, a higher volatility gives a strictly lower limit. |
| Risk.StopLoss | src/agents/crypto_risk_manager.py:17-21 | For a non-negative price: 0.5·price ≤ stop ≤ price. The stop is exactly 0.5·price once 1.5·volatility ≥ 0.5. Below that it is the price lowered by 1.5·volatility·price. |
| Risk.TakeProfit | src/agents/crypto_risk_manager.py:23-25 | For a non-negative price the take profit is at least the price, strictly above for positive volatility, and equal at volatility 0. It exceeds the price by 2·volatility·price, with no cap. |
| Risk.PortfolioValue | src/agents/crypto_risk_manager.py:54-56 | The valuation loop returns cash plus the sum of amount·avg_price over all positions. |
| Risk.HoldingsValueNonNegative | src/agents/crypto_risk_manager.py:55-56 | `HoldingsValue`, the sum of amount·avg_price, is non-negative when every amount and average price is. |
| Risk.HoldingsValueRemove | src/agents/crypto_risk_manager.py:55-56 | Removing one position lowers the holdings value by exactly that position's value. |
| Risk.HoldingsValuePermutation | src/agents/crypto_risk_manager.py:55-56 | The valuation does not depend on the order of the positions dict. |
| Risk.EmptyPositionsWorthNothing | src/agents/crypto_risk_manager.py:54-56 | Positions whose amounts are all zero add nothing to the cash. |
| Risk.RiskEntryFor | src/agents/crypto_risk_manager.py:59-83 | The current price is the weighted average price, and the market data is kept. The stop loss and take profit are `StopLoss` and `TakeProfit` of that price, so for a non-negative price 0.5·price ≤ stop ≤ price ≤ take profit. The limit follows the position-limit relation, is non-negative for a non-negative portfolio value, and is sized with base risk 0.02. |
| Risk.RiskAnalysis | src/agents/crypto_risk_manager.py:34-83 | Exactly the symbols with non-empty price data get an entry. All entries are sized on the same portfolio value. |
| Risk.RiskAnalysisStep | src/agents/crypto_risk_manager.py:44-83 | One more symbol adds its entry when its data is non-empty and changes nothing otherwise. |
| Risk.WithRiskReport | src/agents/crypto_risk_manager.py:85-94 | Every data key is kept. `analyst_signals` keeps every earlier report and sets only the risk report. |
| Risk.AssessSymbol | src/agents/crypto_risk_manager.py:51-83 | The loop body for one symbol yields `RiskEntryFor` on the full portfolio value. |
| Risk.RiskManager | src/agents/crypto_risk_manager.py:27-94 | The agent's new data is the risk report over the symbols with data, merged as above. |
| Llm.ExtractJson | src/utils/llm.py:105-132 | A parse of the whole content wins. Any other result requires a "{" or a "```json" in the content. |
| Llm.ExtractJsonSound | src/utils/llm.py:105-132 | Whatever the extraction returns is the parse of some substring of the content. |
| Llm.ExtractedSpan | src/utils/llm.py:109-128 | The parsed substring, stage by stage: the whole content when it parses; otherwise, with a closed fence, a substring inside the fenced part; otherwise, with uncrossed braces, exactly the text from the first "{" through the last "}". |
| Llm.StrippedSpan | src/utils/llm.py:115-121 | The stripped text between a "```json" fence and its closing "```" is a substring of the content, lying inside the fenced part. |
| Llm.BraceSpan | src/utils/llm.py:123-128 | The text from the first "{" through the last "}" is a substring of the content, empty when the braces are crossed. |
| Llm.FencedBranch | src/utils/llm.py:115-121 | Once the whole content fails to parse and a closed "```json" fence exists, the result is the parse of the stripped fenced text, success or failure: the brace fallback is not tried. |
| Llm.BraceBranch | src/utils/llm.py:123-128 | When the whole content fails to parse and there is no "```json" fence, or the fence is never closed, the result is the parse of the text from the first "{" through the last "}", or none when either brace is missing. |
| Llm.NoFenceNoBraces | src/utils/llm.py:123-132 | Without a fence and without any "{", an unparsable content yields none. |
| Llm.Validate | src/utils/llm.py:70 | Building the output model gives its value exactly when validation accepts the parsed value, and a validation error otherwise. |
| Llm.ParseResponse | src/utils/llm.py:60-72 | On the Deepseek path a falsy extraction is a decode error. On the other path an unparsable content is one. A decoded value (non-falsy on the Deepseek path) gives exactly its validation: the validated output, or a validation error. Only decode and validation errors arise. |
| Llm.Attempt | src/utils/llm.py:38-70 | The try body fails with the initialisation error exactly when the model cannot be built, with the missing-model error exactly for a falsy model, and with the invocation error exactly when the ready model's invocation raises. A response only ever yields an output, a decode error or a validation error. That outcome is exactly `ParseResponse` of the response content, so a valid response reaches the caller as its validated output. |
| Llm.Fallback | src/utils/llm.py:78-82 | The outer handler returns the default exactly when a factory is given and re-raises the error otherwise, keeping the invocation count. |
| Llm.CallLlm | src/utils/llm.py:12-82 | The backend is invoked exactly once once the model is ready, and never otherwise; the retry count is unused. With a default factory the call never raises. A successful attempt returns its output. A failed one returns the default when there is a factory and re-raises its error otherwise. |
| PortfolioManager.Trunc | src/agents/portfolio_manager.py:50 | Python's `int()` truncates toward zero. |
| PortfolioManager.MaxShares | src/agents/portfolio_manager.py:50 | The cap is 0 for a non-positive price. For a positive price and a non-negative limit, n ≥ 0 and n·price ≤ limit < (n+1)·price. A negative limit gives a non-positive cap truncated toward zero. |
| PortfolioManager.ScaleBounds | src/agents/portfolio_manager.py:50 | Bounds on limit/price are bounds on the limit after scaling by a positive price. |
| PortfolioManager.MaxSharesWithinLimit | src/agents/portfolio_manager.py:48-50 | For a risk entry with a positive price and a non-negative limit, the cap never buys more than the limit, and one more unit would exceed it. |
| PortfolioManager.SignalsByTicker | src/agents/portfolio_manager.py:39-47 | A symbol gets an entry exactly when both analysts reported on it. The entry pairs the two reports. |
| PortfolioManager.SignalsByTickerStep | src/agents/portfolio_manager.py:39-47 | One more symbol adds its entry exactly when both reports exist. |
| PortfolioManager.PrepareDecisionInputs | src/agents/portfolio_manager.py:39-50 | The loop fills three dicts with the same key set: the symbols both analysts covered. Prices are the risk entries' current prices, and caps are `MaxShares` of limit and price. |
| PortfolioManager.Request | src/agents/portfolio_manager.py:39-50 | The request holds those three dicts and the portfolio's cash, positions and margin requirement. |
| PortfolioManager.DefaultDecisions | src/agents/portfolio_manager.py:175-183 | Every ticker of the full list gets hold, quantity 0, confidence 0.0 and the fixed reasoning text, including tickers without signals. |
| PortfolioManager.GenerateTradingDecision | src/agents/portfolio_manager.py:186-193 | The result is the model's validated decisions when the attempt succeeds. Otherwise it is the all-hold default, and the call never raises. |
| PortfolioManager.FailedCallHoldsEverything | src/agents/portfolio_manager.py:175-193 | When the model cannot be initialised or its invocation fails, every ticker is held with quantity 0. |
| PortfolioManager.PortfolioManagementAgent | src/agents/portfolio_manager.py:25-84 | Every data key is kept and only `decisions` is added or replaced. It holds exactly the decisions of `GenerateTradingDecision` on the request built from `analyst_signals`, with the same key set. |
| PortfolioManager.PipelineSignals | src/main.py:202-204 | After the technical agent and then the risk manager, `analyst_signals` holds exactly the two reports of the run, whatever it held before. |
| Display.AnalystOrder | src/utils/display.py:10-18 | "Technical Analysis" ranks 0 and "Risk Management" ranks 1. Every other name ranks 999. |
| Display.Key | src/utils/display.py:16-18 | The sort key is 0 exactly for "Technical Analysis", 1 exactly for "Risk Management", and 999 for every other name. |
| Display.SortBy | src/utils/display.py:18 | The stable sort keeps the number of entries. |
| Display.SortAnalystSignals | src/utils/display.py:7-18 | The sorted signals have as many entries as the input. |
| Display.BucketSnoc | src/utils/display.py:18 | The entries with key k of a sequence extended by one element gain that element exactly when its key is k. |
| Display.BucketAppend | src/utils/display.py:18 | The entries of one analyst in a concatenation are that analyst's entries of each part, in order. |
| Display.KeysAtMostBound | src/utils/display.py:18 | The element-by-element key bound bounds every entry's key. |
| Display.KeysAtMostWeaken | src/utils/display.py:18 | A key bound holds for every larger bound. |
| Display.InsertAtMost | src/utils/display.py:18 | Inserting an entry under a key bound keeps every key under the bound. |
| Display.SortedSnoc | src/utils/display.py:18 | Appending an entry whose key is at least every key of a sorted sequence keeps it sorted. |
| Display.SortedAtMostLast | src/utils/display.py:18 | Every key of a sorted sequence is at most its last key. |
| Display.InsertSorted | src/utils/display.py:18 | Inserting into a sorted sequence keeps it sorted. |
| Display.InsertPermutes | src/utils/display.py:18 | Insertion adds exactly the inserted entry and loses none. |
| Display.InsertBuckets | src/utils/display.py:18 | Insertion appends the entry to its own analyst's entries and leaves the others' order unchanged. |
| Display.SortProperties | src/utils/display.py:18 | The sort returns a permutation of its input with non-decreasing keys. It is stable: each analyst's entries keep their input order. |
| Display.KeysAtMostFromBound | src/utils/display.py:18 | A key bound on every entry holds entry by entry. |
| Display.PrefixAtMost | src/utils/display.py:18 | The longest prefix whose keys are at most m: every key in it is at most m, and the next key exceeds m. |
| Display.UniformBucket | src/utils/display.py:18 | When every key equals v, the entries with key k are all of them for k = v and none otherwise. |
| Display.RunsBucket | src/utils/display.py:18 | Of three runs keyed 0, 1 and 999, the entries with key k are exactly the run keyed k. |
| Display.GroupBuckets | src/utils/display.py:18 | The rank-0, rank-1 and rank-999 entries of three such runs are the three runs. |
| Display.SortedIsBuckets | src/utils/display.py:18 | A sequence sorted by analyst rank is its technical entries, then its risk entries, then the rest. |
| Display.SortIsGrouping | src/utils/display.py:7-18 | The sorted signals are every technical-analysis entry, then every risk-management entry, then all others, each group in input order. |
| Display.SortAnalystSignalsProperties | src/utils/display.py:7-18 | The sorted signals are a permutation of the input in non-decreasing analyst rank, and each analyst's entries keep their input order. |
| Display.IsSummary | src/utils/display.py:120 | A summary row has a string second cell that contains "PORTFOLIO SUMMARY", and so is at least as long as that marker. |
| Display.SummaryRows | src/utils/display.py:119-121 | Every collected row is a summary row. |
| Display.TickerRows | src/utils/display.py:119-123 | No collected row is a summary row. |
| Display.SplitStep | src/utils/display.py:116-123 | One more row with a second cell extends exactly one of the two filters, by itself. |
| Display.PartitionStep | src/utils/display.py:116-123 | One more row with a second cell adds itself to exactly one of the two lists. |
| Display.SplitIsPartition | src/utils/display.py:116-123 | The summary and ticker rows together are exactly the input rows, and their lengths sum to the input length. |
| Display.SplitRows | src/utils/display.py:116-123 | The split succeeds iff every row has a second cell. Otherwise it stops at the first short row with an IndexError. On success the two lists are the summary and ticker filters of the input, in order. |
| Display.ActionColor | src/utils/display.py:210-216 | Green exactly for BUY or COVER after upper-casing. Red exactly for SELL or SHORT, yellow exactly for HOLD, white otherwise. |
| Display.ActionColorIgnoresCase | src/utils/display.py:216 | The colour lookup ignores letter case. |
| Display.ActionColours | src/utils/display.py:210-216 | Each decision action maps to a colour: buy and cover green, sell and short red, hold yellow. None is white. |
| Text.Find | src/utils/llm.py:115-124 | `str.find` is -1 iff the pattern does not occur. Otherwise it is the lowest occurrence. |
| Text.RFind | src/utils/llm.py:125 | `str.rfind` is -1 iff the pattern does not occur. Otherwise it is the highest occurrence. |
| Text.Contains | src/utils/display.py:120 | `pat in s` holds exactly when the pattern occurs at some position of `s`. |
| Text.Slice | src/utils/llm.py:127 | A slice with crossed bounds is empty. Otherwise it is the characters between the bounds. |
| Text.Strip | src/utils/llm.py:120 | `strip` removes only whitespace from both ends, and the result neither starts nor ends with whitespace. |
| Text.StripBounds | src/utils/llm.py:120 | The stripped text is a substring of its input. |
| Text.Upper | src/utils/display.py:216 | `upper` maps each character by its ASCII upper-case form and keeps the length. |
| Text.UpperIdempotent | src/utils/display.py:216 | Upper-casing twice is upper-casing once. |

## Left out

- `calculate_crypto_signals` (TA-Lib indicators) is not modelled. Each timeframe's last indicator values are an input.
- `calculate_volatility` (numpy log returns, standard deviation, √252) is not modelled. Volatility is an input ≥ 0. A history of fewer than three rows is not distinguished. In the source it has at most one log return, so the pandas standard deviation (ddof 1) is NaN. The position limit is then NaN, and `int(position_limit / current_price)` in the portfolio manager (src/agents/portfolio_manager.py:50) raises ValueError outside `call_llm`'s handlers, so the portfolio agent aborts.
- `CryptoAPI.get_crypto_prices` and `get_market_data` are network I/O. They are parameters: an absent value stands for an empty frame. Only `weighted_avg_price` of the market data is kept.
- Floats are exact reals: IEEE rounding, NaN from indicator warm-up, and infinities are not modelled.
- Technicals.Synthesize: the reasoning is kept as the ordered list of analysed timeframes it is formatted from. The `:.2f` text and the " | " join are left out.
- `data["symbols"]`, `data["portfolio"]` and the dates are read by the agents in the source and are parameters here. The KeyError for a missing key is not modelled.
- PortfolioManager.PortfolioManagementAgent reads `analyst_signals` as `SignalsIn`, a value that is not a dict counting as empty. The source's KeyError for a missing `analyst_signals` is not modelled.
- The `messages` list, the progress display, `print`, logging and `json.dumps` of the decisions are not modelled.
- The prompt template text is not behaviour. The request keeps only the values the prompt is formatted from.
- `get_model` and `get_model_info` are one input: they raise, give a falsy model, or give a model that is or is not Deepseek. A `model_info` of None counts as non-Deepseek.
- Llm.ParseResponse: a `TypeError` from `pydantic_model(**result)` on a non-dict result counts as a validation failure. The source catches it in the outer handler instead, with the same outcome when a default factory is given.
- A default factory that itself raises is not modelled. `create_default_response` is not modelled, since it depends on pydantic field reflection.
- Text.Upper: only ASCII letters are upper-cased. Python's full Unicode case mapping is not modelled. So Display.ActionColor gives white for an action such as "ſell" (long s, U+017F), which Python upper-cases to "SELL" and colours red.
- The portfolio's margin requirement is read with `get('margin_requirement', 0)`. The portfolio the crypto runner builds has no such key, so it sends 0. The model takes the value as a field of the portfolio.
- `print_trading_output`, and the printing and screen clearing in `print_backtest_results`, are not modelled. `main.py` is covered only by the agent order in PortfolioManager.PipelineSignals.

Behaviour of the code that a reader might not expect, which the model follows:

- `call_llm` describes itself as making "an LLM call with retry logic" and documents `max_retries` as the "Maximum number of retries (default: 3)" (src/utils/llm.py:22, 30). The code invokes the backend once and never reads `max_retries`.
- The Bollinger position compares the middle band with the outer bands, not the close.
- The default reasoning is "Error in portfolio management, defaulting to hold". The default covers every requested ticker.
- The technical agent replaces `analyst_signals` and drops earlier reports, while the risk manager merges into it.
- A symbol without 1h data aborts the technical agent with a KeyError; it is not skipped.
- On success, the decisions' key set is whatever the validated model output holds, not necessarily the requested symbols.
- `max_shares` is `int(position_limit / current_price)`, and `int()` truncates toward zero (PortfolioManager.Trunc). For a negative limit this differs from a floor.
- On success, the decided quantities are not checked against `max_shares`. The cap only goes into the prompt.
