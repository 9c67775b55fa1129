/** The crypto technical agent: per symbol, classify the indicator snapshot of
    every timeframe that has data, weight the votes (the primary timeframe 1.0,
    the others 0.5), normalise, and threshold at +-0.2 into a direction with a
    confidence. */
module Technicals {
  import opened Types

  /** The timeframes the agent fetches, in its dict's insertion order. */
  const AllTimeframes: seq<Timeframe> := [H1, H4, D1]

  const Primary: Timeframe := H1

  datatype TechnicalError = MissingTimeframe(timeframe: Timeframe)

  /** Position of a timeframe in the fetch order. */
  function Rank(tf: Timeframe): nat
  {
    match tf
    case H1 => 0
    case H4 => 1
    case D1 => 2
  }

  function TimeframesOf<V>(entries: seq<(Timeframe, V)>): (r: seq<Timeframe>)
    ensures |r| == |entries|
    ensures forall k :: 0 <= k < |r| ==> r[k] == entries[k].0
  {
    seq(|entries|, k requires 0 <= k < |entries| => entries[k].0)
  }

  /** The classification of one timeframe's snapshot. The band position
      compares the middle band, not the close, against the outer bands. */
  function Classify(ind: Indicators): (a: TimeframeAnalysis)
    ensures a.rsi == ind.rsi && a.adx == ind.adx
    ensures a.macd == MacdBearish <==> ind.macd <= ind.macdSignal
    ensures a.bb == Oversold ==> ind.bbMiddle < ind.bbLower
    ensures a.bb == Overbought ==> ind.bbLower <= ind.bbMiddle && ind.bbUpper < ind.bbMiddle
    ensures a.bb == Normal <==> ind.bbLower <= ind.bbMiddle <= ind.bbUpper
    ensures a.trend == Strong <==> ind.adx > 25.0
  {
    TimeframeAnalysis(
      ind.rsi,
      if ind.macd > ind.macdSignal then MacdBullish else MacdBearish,
      if ind.bbMiddle < ind.bbLower then Oversold
      else if ind.bbMiddle > ind.bbUpper then Overbought
      else Normal,
      if ind.adx > 25.0 then Strong else Weak,
      ind.adx)
  }

  /** `timeframe_analysis`, in the order of `signals`. */
  function Analyze(signals: seq<(Timeframe, Indicators)>): (r: seq<(Timeframe, TimeframeAnalysis)>)
    ensures |r| == |signals| && TimeframesOf(r) == TimeframesOf(signals)
    ensures forall k :: 0 <= k < |r| ==> r[k].1 == Classify(signals[k].1)
  {
    seq(|signals|, k requires 0 <= k < |signals| => (signals[k].0, Classify(signals[k].1)))
  }

  /** The weight of a timeframe: 1.0 for the primary one, 0.5 for the others. */
  function Weight(tf: Timeframe, primary: Timeframe): (w: real)
    ensures w == 1.0 <==> tf == primary
    ensures w == 0.5 <==> tf != primary
  {
    if tf == primary then 1.0 else 0.5
  }

  /** The weight one timeframe adds to the bullish score: once for an RSI
      below 30, once for a bullish MACD, once for an oversold band position. */
  function BullishVotes(a: TimeframeAnalysis, w: real): (r: real)
    ensures w >= 0.0 ==> 0.0 <= r <= 3.0 * w
    ensures a.rsi < 30.0 && a.macd == MacdBullish && a.bb == Oversold ==> r == 3.0 * w
    ensures a.rsi >= 30.0 && a.macd == MacdBearish && a.bb != Oversold ==> r == 0.0
  {
    (if a.rsi < 30.0 then w else 0.0)
    + (if a.macd == MacdBullish then w else 0.0)
    + (if a.bb == Oversold then w else 0.0)
  }

  /** The weight one timeframe adds to the bearish score: once for an RSI
      above 70, once for a MACD that is not bullish, once for an overbought
      band position. */
  function BearishVotes(a: TimeframeAnalysis, w: real): (r: real)
    ensures w >= 0.0 ==> 0.0 <= r <= 3.0 * w
    ensures a.rsi > 70.0 && a.macd == MacdBearish && a.bb == Overbought ==> r == 3.0 * w
    ensures a.rsi <= 70.0 && a.macd == MacdBullish && a.bb != Overbought ==> r == 0.0
  {
    (if a.rsi < 30.0 then 0.0 else if a.rsi > 70.0 then w else 0.0)
    + (if a.macd == MacdBullish then 0.0 else w)
    + (if a.bb == Oversold then 0.0 else if a.bb == Overbought then w else 0.0)
  }

  /** The votes of one timeframe: each indicator votes for at most one side,
      the MACD always votes for exactly one side, an extreme RSI or a band
      position outside the bands adds one vote, and an RSI in [30, 70] with
      a normal band position leaves the MACD vote alone. */
  lemma TimeframeVotes(a: TimeframeAnalysis, w: real)
    requires w > 0.0
    ensures 0.0 <= BullishVotes(a, w) <= 3.0 * w && 0.0 <= BearishVotes(a, w) <= 3.0 * w
    ensures w <= BullishVotes(a, w) + BearishVotes(a, w) <= 3.0 * w
    ensures a.rsi < 30.0 ==> BullishVotes(a, w) >= w
    ensures a.rsi > 70.0 ==> BearishVotes(a, w) >= w
    ensures 30.0 <= a.rsi <= 70.0 && a.bb == Normal ==> BullishVotes(a, w) + BearishVotes(a, w) == w
    ensures a.macd == MacdBearish ==> BearishVotes(a, w) >= w
    ensures a.macd == MacdBullish ==> BullishVotes(a, w) >= w
    ensures a.bb == Oversold ==> BullishVotes(a, w) >= w
    ensures a.bb == Overbought ==> BearishVotes(a, w) >= w
    ensures BullishVotes(a, w) + BearishVotes(a, w)
      == w + (if a.rsi < 30.0 || a.rsi > 70.0 then w else 0.0) + (if a.bb != Normal then w else 0.0)
  {
  }

  /** `bullish_signals` after the loop: every timeframe's bullish votes at its weight. */
  function BullishScore(an: seq<(Timeframe, TimeframeAnalysis)>, primary: Timeframe): (r: real)
  {
    if an == [] then 0.0
    else BullishScore(an[..|an| - 1], primary) + BullishVotes(an[|an| - 1].1, Weight(an[|an| - 1].0, primary))
  }

  /** `bearish_signals` after the loop: every timeframe's bearish votes at its weight. */
  function BearishScore(an: seq<(Timeframe, TimeframeAnalysis)>, primary: Timeframe): (r: real)
  {
    if an == [] then 0.0
    else BearishScore(an[..|an| - 1], primary) + BearishVotes(an[|an| - 1].1, Weight(an[|an| - 1].0, primary))
  }

  /** `total_weight` after the loop: the sum of the timeframes' weights. */
  function TotalWeight<V>(an: seq<(Timeframe, V)>, primary: Timeframe): (r: real)
  {
    if an == [] then 0.0
    else TotalWeight(an[..|an| - 1], primary) + Weight(an[|an| - 1].0, primary)
  }

  /** How often `tf` occurs in `tfs`. */
  function Occurrences(tfs: seq<Timeframe>, tf: Timeframe): nat
  {
    if tfs == [] then 0
    else Occurrences(tfs[..|tfs| - 1], tf) + (if tfs[|tfs| - 1] == tf then 1 else 0)
  }

  predicate Distinct(tfs: seq<Timeframe>)
  {
    forall i, j :: 0 <= i < j < |tfs| ==> tfs[i] != tfs[j]
  }

  /** Every timeframe weighs 0.5 and the primary, once per occurrence, 0.5 more. */
  lemma {:induction false} TotalWeightCounts<V>(an: seq<(Timeframe, V)>, primary: Timeframe)
    ensures TotalWeight(an, primary) == 0.5 * |an| as real + 0.5 * Occurrences(TimeframesOf(an), primary) as real
  {
    if an != [] {
      var init := an[..|an| - 1];
      TotalWeightCounts(init, primary);
      assert TimeframesOf(an)[..|an| - 1] == TimeframesOf(init);
    }
  }

  lemma {:induction false} OccurrencesDistinct(tfs: seq<Timeframe>, tf: Timeframe)
    requires Distinct(tfs)
    ensures Occurrences(tfs, tf) == if tf in tfs then 1 else 0
  {
    if tfs != [] {
      var init := tfs[..|tfs| - 1];
      OccurrencesDistinct(init, tf);
      assert tfs == init + [tfs[|tfs| - 1]];
    }
  }

  /** With distinct timeframes among which the primary appears, k analysed
      timeframes weigh 1.0 + 0.5 * (k - 1) in total. */
  lemma TotalWeightOfDistinct<V>(an: seq<(Timeframe, V)>, primary: Timeframe)
    requires Distinct(TimeframesOf(an)) && primary in TimeframesOf(an)
    ensures TotalWeight(an, primary) == 1.0 + 0.5 * (|an| - 1) as real
  {
    TotalWeightCounts(an, primary);
    OccurrencesDistinct(TimeframesOf(an), primary);
  }

  /** The primary timeframe alone already contributes weight 1.0. */
  lemma {:induction false} TotalWeightWithPrimary<V>(an: seq<(Timeframe, V)>, primary: Timeframe)
    requires primary in TimeframesOf(an)
    ensures TotalWeight(an, primary) >= 1.0
  {
    TotalWeightCounts(an, primary);
    OccurrencesPositive(TimeframesOf(an), primary);
  }

  lemma {:induction false} OccurrencesPositive(tfs: seq<Timeframe>, tf: Timeframe)
    requires tf in tfs
    ensures Occurrences(tfs, tf) >= 1
  {
    var init := tfs[..|tfs| - 1];
    if tfs[|tfs| - 1] != tf {
      assert tfs == init + [tfs[|tfs| - 1]];
      OccurrencesPositive(init, tf);
    }
  }

  /** The two scores never differ by more than three times the total weight. */
  lemma {:induction false} ScoresBounded(an: seq<(Timeframe, TimeframeAnalysis)>, primary: Timeframe)
    ensures 0.0 <= BullishScore(an, primary) <= 3.0 * TotalWeight(an, primary)
    ensures 0.0 <= BearishScore(an, primary) <= 3.0 * TotalWeight(an, primary)
    ensures -3.0 * TotalWeight(an, primary) <= BullishScore(an, primary) - BearishScore(an, primary) <= 3.0 * TotalWeight(an, primary)
  {
    if an != [] {
      var last := an[|an| - 1];
      ScoresBounded(an[..|an| - 1], primary);
      TimeframeVotes(last.1, Weight(last.0, primary));
    }
  }

  /** Every timeframe weighs between 0.5 and 1.0. */
  lemma {:induction false} TotalWeightBounds<V>(an: seq<(Timeframe, V)>, primary: Timeframe)
    ensures 0.5 * |an| as real <= TotalWeight(an, primary) <= |an| as real
    decreases |an|
  {
    if an != [] {
      TotalWeightBounds(an[..|an| - 1], primary);
    }
  }

  /** `signal_strength`: the normalised score difference. */
  function Strength(an: seq<(Timeframe, TimeframeAnalysis)>, primary: Timeframe): (s: real)
    requires primary in TimeframesOf(an)
    ensures -3.0 <= s <= 3.0
  {
    TotalWeightWithPrimary(an, primary);
    ScoresBounded(an, primary);
    var t := TotalWeight(an, primary);
    var d := BullishScore(an, primary) - BearishScore(an, primary);
    QuotientBound(d, t);
    d / t
  }

  lemma QuotientBound(d: real, t: real)
    requires t > 0.0 && -3.0 * t <= d <= 3.0 * t
    ensures -3.0 <= d / t <= 3.0
  {
    assert d / t * t == d;
  }

  /** The threshold rule: beyond +-0.2 a direction with confidence
      min(100, |strength| * 50 + 50), otherwise neutral at exactly 50. */
  function Decide(strength: real): (r: (Direction, real))
    requires -3.0 <= strength <= 3.0
    ensures r.0 == Bullish <==> strength > 0.2
    ensures r.0 == Bearish <==> strength < -0.2
    ensures r.0 == Neutral <==> -0.2 <= strength <= 0.2
    ensures r.0 != Neutral ==> 60.0 < r.1 <= 100.0
    ensures r.0 == Neutral ==> r.1 == 50.0
    ensures r.0 != Neutral ==> r.1 == Min(100.0, 50.0 * (if strength >= 0.0 then strength else -strength) + 50.0)
  {
    if strength > 0.2 then (Bullish, Min(100.0, strength * 50.0 + 50.0))
    else if strength < -0.2 then (Bearish, Min(100.0, -strength * 50.0 + 50.0))
    else (Neutral, 50.0)
  }

  /** What `generate_trading_signal` returns: a KeyError when the primary
      timeframe has no entry, otherwise the thresholded signal, whose
      reasoning lists every analysed timeframe in order. */
  function Synthesize(signals: seq<(Timeframe, Indicators)>, primary: Timeframe): (r: Result<TechnicalSignal, TechnicalError>)
    ensures r.Err? <==> primary !in TimeframesOf(signals)
    ensures r.Err? ==> r.error == MissingTimeframe(primary)
    ensures r.Ok? ==> r.value.reasoning == Analyze(signals) && r.value.timeframes == []
    ensures r.Ok? ==> var s := Strength(Analyze(signals), primary);
      && (r.value.signal == Bullish <==> s > 0.2)
      && (r.value.signal == Bearish <==> s < -0.2)
      && (r.value.signal != Neutral ==> 60.0 < r.value.confidence <= 100.0)
      && (r.value.signal == Neutral ==> r.value.confidence == 50.0)
      && (r.value.signal, r.value.confidence) == Decide(s)
  {
    if primary !in TimeframesOf(signals) then Err(MissingTimeframe(primary))
    else
      var an := Analyze(signals);
      var d := Decide(Strength(an, primary));
      Ok(TechnicalSignal(d.0, d.1, an, []))
  }

  /** The scoring loop of `generate_trading_signal`: every timeframe adds
      its weight to the total and its votes to the two scores. */
  lemma ScoresStep(an: seq<(Timeframe, TimeframeAnalysis)>, i: nat, primary: Timeframe)
    requires i < |an|
    ensures BullishScore(an[..i + 1], primary) == BullishScore(an[..i], primary) + BullishVotes(an[i].1, Weight(an[i].0, primary))
    ensures BearishScore(an[..i + 1], primary) == BearishScore(an[..i], primary) + BearishVotes(an[i].1, Weight(an[i].0, primary))
    ensures TotalWeight(an[..i + 1], primary) == TotalWeight(an[..i], primary) + Weight(an[i].0, primary)
  {
    assert an[..i + 1][..i] == an[..i];
  }

  method WeighTimeframes(analysis: seq<(Timeframe, TimeframeAnalysis)>, primary: Timeframe)
    returns (bullish: real, bearish: real, totalWeight: real)
    ensures bullish == BullishScore(analysis, primary)
    ensures bearish == BearishScore(analysis, primary)
    ensures totalWeight == TotalWeight(analysis, primary)
  {
    bullish, bearish, totalWeight := 0.0, 0.0, 0.0;
    for i := 0 to |analysis|
      invariant bullish == BullishScore(analysis[..i], primary)
      invariant bearish == BearishScore(analysis[..i], primary)
      invariant totalWeight == TotalWeight(analysis[..i], primary)
    {
      ScoresStep(analysis, i, primary);
      var tf := analysis[i].0;
      var a := analysis[i].1;
      var weight := if tf == primary then 1.0 else 0.5;
      assert weight == Weight(tf, primary);
      totalWeight := totalWeight + weight;
      if a.rsi < 30.0 {
        bullish := bullish + weight;
      } else if a.rsi > 70.0 {
        bearish := bearish + weight;
      }
      if a.macd == MacdBullish {
        bullish := bullish + weight;
      } else {
        bearish := bearish + weight;
      }
      if a.bb == Oversold {
        bullish := bullish + weight;
      } else if a.bb == Overbought {
        bearish := bearish + weight;
      }
    }
    assert analysis[..|analysis|] == analysis;
  }

  /** `generate_trading_signal`: fills the analysis and the reasoning in
      loops and accumulates the weighted scores in a third. */
  method GenerateTradingSignal(signals: seq<(Timeframe, Indicators)>, primary: Timeframe)
    returns (r: Result<TechnicalSignal, TechnicalError>)
    ensures r == Synthesize(signals, primary)
  {
    if primary !in TimeframesOf(signals) {
      return Err(MissingTimeframe(primary));
    }
    var analysis: seq<(Timeframe, TimeframeAnalysis)> := [];
    for i := 0 to |signals|
      invariant |analysis| == i
      invariant forall k :: 0 <= k < i ==> analysis[k] == (signals[k].0, Classify(signals[k].1))
    {
      analysis := analysis + [(signals[i].0, Classify(signals[i].1))];
    }
    assert analysis == Analyze(signals);

    var reasoning: seq<(Timeframe, TimeframeAnalysis)> := [];
    for i := 0 to |analysis|
      invariant reasoning == analysis[..i]
    {
      reasoning := reasoning + [analysis[i]];
    }
    assert reasoning == analysis;

    var bullish, bearish, totalWeight := WeighTimeframes(analysis, primary);
    TotalWeightWithPrimary(analysis, primary);
    assert Synthesize(signals, primary) == Ok(TechnicalSignal(Decide(Strength(analysis, primary)).0, Decide(Strength(analysis, primary)).1, analysis, []));
    var strength := (bullish - bearish) / totalWeight;
    var action, confidence;
    if strength > 0.2 {
      action := Bullish;
      confidence := Min(100.0, strength * 50.0 + 50.0);
    } else if strength < -0.2 {
      action := Bearish;
      confidence := Min(100.0, -strength * 50.0 + 50.0);
    } else {
      action := Neutral;
      confidence := 50.0;
    }
    r := Ok(TechnicalSignal(action, confidence, reasoning, []));
  }

  /** The `signals` dict one symbol's inner loop builds from `tfs`: one entry
      per timeframe whose fetch is non-empty, in the order of `tfs`. */
  function Available(symbol: string, fetch: (string, Timeframe) -> Option<Indicators>, tfs: seq<Timeframe>)
    : (r: seq<(Timeframe, Indicators)>)
    ensures forall tf :: tf in TimeframesOf(r) <==> tf in tfs && fetch(symbol, tf).Some?
    ensures forall k :: 0 <= k < |r| ==> fetch(symbol, r[k].0) == Some(r[k].1)
    ensures |r| <= |tfs|
  {
    if tfs == [] then []
    else
      var init := Available(symbol, fetch, tfs[..|tfs| - 1]);
      var tf := tfs[|tfs| - 1];
      assert tfs == tfs[..|tfs| - 1] + [tf];
      match fetch(symbol, tf)
      case None => init
      case Some(ind) =>
        assert TimeframesOf(init + [(tf, ind)]) == TimeframesOf(init) + [tf];
        init + [(tf, ind)]
  }

  /** Over the fetch order 1h, 4h, 1d the available timeframes come out
      strictly in that order, hence without repetition. */
  lemma {:induction false} AvailableInOrder(symbol: string, fetch: (string, Timeframe) -> Option<Indicators>, n: nat)
    requires n <= |AllTimeframes|
    ensures var r := Available(symbol, fetch, AllTimeframes[..n]);
      forall i, j :: 0 <= i < j < |r| ==> Rank(r[i].0) < Rank(r[j].0)
    ensures forall k :: 0 <= k < |Available(symbol, fetch, AllTimeframes[..n])| ==>
      Rank(Available(symbol, fetch, AllTimeframes[..n])[k].0) < n
  {
    if n > 0 {
      AvailableInOrder(symbol, fetch, n - 1);
      assert AllTimeframes[..n][..n - 1] == AllTimeframes[..n - 1];
      assert Rank(AllTimeframes[n - 1]) == n - 1;
    }
  }

  /** The timeframes listed in a symbol's signal are exactly those with
      data, in 1h, 4h, 1d order. */
  lemma AvailableTimeframes(symbol: string, fetch: (string, Timeframe) -> Option<Indicators>)
    ensures var tfs := TimeframesOf(Available(symbol, fetch, AllTimeframes));
      && (forall tf :: tf in tfs <==> fetch(symbol, tf).Some?)
      && (forall i, j :: 0 <= i < j < |tfs| ==> Rank(tfs[i]) < Rank(tfs[j]))
  {
    assert AllTimeframes[..3] == AllTimeframes;
    AvailableInOrder(symbol, fetch, 3);
    forall tf ensures tf in AllTimeframes {
      assert AllTimeframes[Rank(tf)] == tf;
    }
  }

  /** When the primary timeframe has data, k analysed timeframes weigh
      1.0 + 0.5 * (k - 1); one empty timeframe out of three leaves 2.0. */
  lemma AvailableWeight(symbol: string, fetch: (string, Timeframe) -> Option<Indicators>)
    requires fetch(symbol, Primary).Some?
    ensures var r := Available(symbol, fetch, AllTimeframes);
      TotalWeight(r, Primary) == 1.0 + 0.5 * (|r| - 1) as real
  {
    var r := Available(symbol, fetch, AllTimeframes);
    var tfs := TimeframesOf(r);
    AvailableTimeframes(symbol, fetch);
    assert Distinct(tfs) by {
      forall i, j | 0 <= i < j < |tfs| ensures tfs[i] != tfs[j] {
        assert Rank(tfs[i]) < Rank(tfs[j]);
      }
    }
    TotalWeightOfDistinct(r, Primary);
  }

  /** The signal stored for one symbol: the synthesised signal with the
      analysed timeframes attached. */
  function SymbolSignal(symbol: string, fetch: (string, Timeframe) -> Option<Indicators>): (r: TechnicalSignal)
    requires fetch(symbol, Primary).Some?
    ensures var signals := Available(symbol, fetch, AllTimeframes);
      && Synthesize(signals, Primary).Ok?
      && r.timeframes == TimeframesOf(signals)
      && r.reasoning == Analyze(signals)
      && r.signal == Synthesize(signals, Primary).value.signal
      && r.confidence == Synthesize(signals, Primary).value.confidence
  {
    var signals := Available(symbol, fetch, AllTimeframes);
    Synthesize(signals, Primary).value.(timeframes := TimeframesOf(signals))
  }

  /** The `technical_analysis` dict for `symbols`, all of which have
      primary-timeframe data. */
  function TechnicalAnalysis(symbols: seq<string>, fetch: (string, Timeframe) -> Option<Indicators>)
    : (m: map<string, TechnicalSignal>)
    requires forall s :: s in symbols ==> fetch(s, Primary).Some?
    ensures m.Keys == set s | s in symbols
    ensures forall s :: s in m ==> m[s] == SymbolSignal(s, fetch)
  {
    if symbols == [] then map[]
    else
      var init := symbols[..|symbols| - 1];
      var last := symbols[|symbols| - 1];
      assert symbols == init + [last];
      var m := TechnicalAnalysis(init, fetch);
      var signal := SymbolSignal(last, fetch);
      m[last := signal]
  }

  lemma TechnicalAnalysisStep(symbols: seq<string>, i: nat, fetch: (string, Timeframe) -> Option<Indicators>)
    requires i < |symbols|
    requires forall s :: s in symbols[..i + 1] ==> fetch(s, Primary).Some?
    ensures forall s :: s in symbols[..i] ==> fetch(s, Primary).Some?
    ensures TechnicalAnalysis(symbols[..i + 1], fetch)
      == TechnicalAnalysis(symbols[..i], fetch)[symbols[i] := SymbolSignal(symbols[i], fetch)]
  {
    assert symbols[..i + 1][..i] == symbols[..i];
    assert symbols[..i + 1] == symbols[..i] + [symbols[i]];
  }

  /** The agent's returned data: `analyst_signals` replaced by a map that
      holds only the technical report. */
  function WithTechnicalReport(data: StateData, report: map<string, TechnicalSignal>): (r: StateData)
    ensures r.Keys == data.Keys + {AnalystSignalsKey}
    ensures forall k :: k in data && k != AnalystSignalsKey ==> r[k] == data[k]
    ensures SignalsIn(r).Keys == {TechnicalAgentKey} && TechnicalIn(SignalsIn(r)) == report
  {
    data[AnalystSignalsKey := AnalystSignals(map[TechnicalAgentKey := TechnicalReport(report)])]
  }

  lemma AvailableStep(symbol: string, fetch: (string, Timeframe) -> Option<Indicators>, tfs: seq<Timeframe>, j: nat)
    requires j < |tfs|
    ensures Available(symbol, fetch, tfs[..j + 1]) == Available(symbol, fetch, tfs[..j])
      + (if fetch(symbol, tfs[j]).Some? then [(tfs[j], fetch(symbol, tfs[j]).value)] else [])
  {
    assert tfs[..j + 1][..j] == tfs[..j];
  }

  /** The inner loop of `crypto_technical_agent`: fetch every timeframe and
      skip the ones whose data is empty. */
  method CollectSignals(symbol: string, fetch: (string, Timeframe) -> Option<Indicators>)
    returns (signals: seq<(Timeframe, Indicators)>)
    ensures signals == Available(symbol, fetch, AllTimeframes)
  {
    signals := [];
    for j := 0 to |AllTimeframes|
      invariant signals == Available(symbol, fetch, AllTimeframes[..j])
    {
      AvailableStep(symbol, fetch, AllTimeframes, j);
      var df := fetch(symbol, AllTimeframes[j]);
      if df.None? {
        continue;
      }
      signals := signals + [(AllTimeframes[j], df.value)];
    }
    assert AllTimeframes[..|AllTimeframes|] == AllTimeframes;
  }

  /** `crypto_technical_agent`: for each symbol, collects the timeframes that
      have data and synthesises a signal. A symbol without primary-timeframe
      data raises the KeyError of `generate_trading_signal`, which aborts the
      agent. */
  method TechnicalAgent(data: StateData, symbols: seq<string>, fetch: (string, Timeframe) -> Option<Indicators>)
    returns (r: Result<StateData, TechnicalError>)
    ensures r.Ok? <==> forall s :: s in symbols ==> fetch(s, Primary).Some?
    ensures r.Err? ==> r.error == MissingTimeframe(Primary)
    ensures r.Ok? ==> r.value == WithTechnicalReport(data, TechnicalAnalysis(symbols, fetch))
  {
    var technicalAnalysis: map<string, TechnicalSignal> := map[];
    for i := 0 to |symbols|
      invariant forall s :: s in symbols[..i] ==> fetch(s, Primary).Some?
      invariant technicalAnalysis == TechnicalAnalysis(symbols[..i], fetch)
    {
      var symbol := symbols[i];
      var signals := CollectSignals(symbol, fetch);
      assert Primary in TimeframesOf(signals) <==> fetch(symbol, Primary).Some?;
      var signal := GenerateTradingSignal(signals, Primary);
      if signal.Err? {
        assert symbol in symbols;
        return Err(signal.error);
      }
      assert SymbolSignal(symbol, fetch) == signal.value.(timeframes := TimeframesOf(signals));
      technicalAnalysis := technicalAnalysis[symbol := signal.value.(timeframes := TimeframesOf(signals))];
      TechnicalAnalysisStep(symbols, i, fetch);
    }
    assert symbols[..|symbols|] == symbols;
    r := Ok(WithTechnicalReport(data, technicalAnalysis));
  }
}
