/**
 * The signal generator: it fuses an aggregated sentiment score with a vote over
 * technical indicators into a buy, sell or hold signal, explains the signal in one
 * sentence, and sizes a position from the signal's confidence.
 *
 * The indicator dictionary maps indicator names to a number or `None`; a missing
 * name reads as `None`. In several groups presence is Python truthiness, so a value
 * of 0.0 counts as absent there.
 */
module Trading {
  import opened Wrappers
  import opened Text
  import opened Numbers

  /**
   * The entries of a non-empty indicator dictionary, each a number or `None`; a
   * missing name reads as `None`.
   */
  datatype Indicators = Indicators(
    rsi: Option<real>,
    macd: Option<real>,
    macdSignal: Option<real>,
    macdDiff: Option<real>,
    ma20: Option<real>,
    ma50: Option<real>,
    ma200: Option<real>,
    bbHigh: Option<real>,
    bbLow: Option<real>,
    bbMid: Option<real>,
    currentPrice: Option<real>,
    volume: Option<real>,
    volumeSma: Option<real>)

  /** Python truthiness of a number or `None`: present and not zero. */
  predicate Truthy(v: Option<real>) {
    v.Some? && v.value != 0.0
  }

  /**
   * The market dictionary handed to the strategy; only its `indicators` entry is
   * read. `None` stands for a missing or empty indicator dictionary, the one case
   * Python treats as falsy.
   */
  datatype MarketData = MarketData(indicators: Option<Indicators>)

  /** Every entry `None`: what reading a missing or empty dictionary gives. */
  const NoIndicators: Indicators := Indicators(None, None, None, None, None, None, None, None, None, None, None, None, None)

  /** `market_data.get('indicators', {})`, read entry by entry. */
  function IndicatorsOf(m: MarketData): Indicators {
    m.indicators.GetOr(NoIndicators)
  }

  /** The aggregated sentiment dictionary, each of the four entries the strategy reads present or missing. */
  datatype SentimentInput = SentimentInput(
    weightedScore: Option<real>,
    confidence: Option<real>,
    totalCount: Option<int>,
    overallSentiment: Option<string>)

  /** The strategy's configuration, fixed at construction. */
  datatype Strategy = Strategy(sentimentWeight: real, technicalWeight: real, buyThreshold: real, sellThreshold: real)

  /**
   * The constructor: with a positive total weight both weights are divided by it, so
   * they keep their proportion and sum to 1; otherwise they stay as given.
   */
  function NewStrategy(sentimentWeight: real, technicalWeight: real, buyThreshold: real, sellThreshold: real)
    : (s: Strategy)
    ensures s.buyThreshold == buyThreshold && s.sellThreshold == sellThreshold
    ensures sentimentWeight + technicalWeight > 0.0 ==>
      && s.sentimentWeight + s.technicalWeight == 1.0
      && s.sentimentWeight * (sentimentWeight + technicalWeight) == sentimentWeight
      && s.technicalWeight * (sentimentWeight + technicalWeight) == technicalWeight
    ensures sentimentWeight + technicalWeight <= 0.0 ==>
      s.sentimentWeight == sentimentWeight && s.technicalWeight == technicalWeight
  {
    var total := sentimentWeight + technicalWeight;
    if total > 0.0 then
      var s := Strategy(sentimentWeight / total, technicalWeight / total, buyThreshold, sellThreshold);
      assert s.sentimentWeight + s.technicalWeight == 1.0 by {
        assert sentimentWeight / total + technicalWeight / total == total / total;
        assert total / total == 1.0;
      }
      s
    else Strategy(sentimentWeight, technicalWeight, buyThreshold, sellThreshold)
  }

  /** The default strategy: weights 0.6 and 0.4, thresholds 0.6 and -0.6. */
  const DefaultStrategy: Strategy := NewStrategy(0.6, 0.4, 0.6, -0.6)

  // Technical score

  /** The RSI vote: strongly bullish when oversold, strongly bearish when overbought, mildly either side of 50. */
  function RsiVote(rsi: real): real {
    if rsi < 30.0 then 0.7 else if rsi > 70.0 then -0.7 else if rsi < 50.0 then 0.2 else -0.2
  }

  /** One RSI vote whenever an RSI is present, bullish exactly below 50. */
  function RsiVotes(ind: Indicators): (v: seq<real>)
    ensures |v| <= 1 && (|v| == 1 <==> ind.rsi.Some?)
    ensures |v| == 1 ==> (v[0] > 0.0 <==> ind.rsi.value < 50.0) && v[0] != 0.0
  {
    if ind.rsi.Some? then [RsiVote(ind.rsi.value)] else []
  }

  /** One MACD vote when both lines are present, bullish exactly when MACD is above its signal line. */
  function MacdVotes(ind: Indicators): (v: seq<real>)
    ensures |v| <= 1 && (|v| == 1 <==> ind.macd.Some? && ind.macdSignal.Some?)
    ensures |v| == 1 ==> (v[0] > 0.0 <==> ind.macd.value > ind.macdSignal.value) && v[0] != 0.0
  {
    var macd, signal := ind.macd, ind.macdSignal;
    if macd.Some? && signal.Some? then [if macd.value > signal.value then 0.5 else -0.3] else []
  }

  /** One histogram vote when the difference is present, bullish exactly when it is positive. */
  function MacdDiffVotes(ind: Indicators): (v: seq<real>)
    ensures |v| <= 1 && (|v| == 1 <==> ind.macdDiff.Some?)
    ensures |v| == 1 ==> (v[0] > 0.0 <==> ind.macdDiff.value > 0.0) && v[0] != 0.0
  {
    var diff := ind.macdDiff;
    if diff.Some? then [if diff.value > 0.0 then 0.3 else -0.3] else []
  }

  /** Price, MA 20 and MA 50 all truthy: bullish when stacked upward, bearish when stacked downward. */
  function TrendVotes(ind: Indicators): (v: seq<real>)
    ensures |v| <= 1 && (|v| == 1 <==> Truthy(ind.ma20) && Truthy(ind.ma50) && Truthy(ind.currentPrice))
    ensures |v| == 1 ==>
      var p, m20, m50 := ind.currentPrice.value, ind.ma20.value, ind.ma50.value;
      && (v[0] > 0.0 <==> p > m20 && m20 > m50)
      && (v[0] < 0.0 <==> p < m20 && m20 < m50)
  {
    var ma20, ma50, price := ind.ma20, ind.ma50, ind.currentPrice;
    if Truthy(ma20) && Truthy(ma50) && Truthy(price) then
      var p, m20, m50 := price.value, ma20.value, ma50.value;
      [if p > m20 && m20 > m50 then 0.6 else if p < m20 && m20 < m50 then -0.6 else 0.0]
    else []
  }

  /** One long-trend vote when MA 200 and the price are truthy, bullish exactly above MA 200. */
  function LongTrendVotes(ind: Indicators): (v: seq<real>)
    ensures |v| <= 1 && (|v| == 1 <==> Truthy(ind.ma200) && Truthy(ind.currentPrice))
    ensures |v| == 1 ==> (v[0] > 0.0 <==> ind.currentPrice.value > ind.ma200.value) && v[0] != 0.0
  {
    var ma200, price := ind.ma200, ind.currentPrice;
    if Truthy(ma200) && Truthy(price) then [if price.value > ma200.value then 0.2 else -0.2] else []
  }

  /** One band vote when the three bands and the price are truthy: bullish at or below the low band, bearish at or above the high one. */
  function BandVotes(ind: Indicators): (v: seq<real>)
    ensures |v| <= 1
    ensures |v| == 1 <==> Truthy(ind.bbHigh) && Truthy(ind.bbLow) && Truthy(ind.bbMid) && Truthy(ind.currentPrice)
    ensures |v| == 1 ==>
      && (v[0] > 0.0 <==> ind.currentPrice.value <= ind.bbLow.value)
      && (v[0] < 0.0 <==> ind.bbLow.value < ind.currentPrice.value && ind.currentPrice.value >= ind.bbHigh.value)
  {
    var high, low, mid, price := ind.bbHigh, ind.bbLow, ind.bbMid, ind.currentPrice;
    if Truthy(high) && Truthy(low) && Truthy(mid) && Truthy(price) then
      [if price.value <= low.value then 0.5 else if price.value >= high.value then -0.5 else 0.0]
    else []
  }

  /** Volume casts a vote only outside [0.5, 1.5] times its moving average. */
  function VolumeVotes(ind: Indicators): (v: seq<real>)
    ensures |v| <= 1
    ensures |v| == 1 <==> Truthy(ind.volume) && Truthy(ind.volumeSma)
                          && (ind.volume.value > ind.volumeSma.value * 1.5 || ind.volume.value < ind.volumeSma.value * 0.5)
    ensures |v| == 1 ==> (v[0] > 0.0 <==> ind.volume.value > ind.volumeSma.value * 1.5) && v[0] != 0.0
  {
    var volume, sma := ind.volume, ind.volumeSma;
    if Truthy(volume) && Truthy(sma) then
      if volume.value > sma.value * 1.5 then [0.2]
      else if volume.value < sma.value * 0.5 then [-0.1]
      else []
    else []
  }

  /** The votes of the seven indicator groups, in the order they are cast. */
  function Votes(ind: Indicators): (v: seq<real>)
    ensures |v| <= 7
    ensures |RsiVotes(ind)| <= |v| && v[..|RsiVotes(ind)|] == RsiVotes(ind)
    ensures |VolumeVotes(ind)| <= |v| && v[|v| - |VolumeVotes(ind)|..] == VolumeVotes(ind)
  {
    RsiVotes(ind) + MacdVotes(ind) + MacdDiffVotes(ind) + TrendVotes(ind)
      + LongTrendVotes(ind) + BandVotes(ind) + VolumeVotes(ind)
  }

  /** `sum(xs)`. */
  function Sum(xs: seq<real>): real {
    if xs == [] then 0.0 else Sum(xs[..|xs| - 1]) + xs[|xs| - 1]
  }

  /**
   * The technical score: 0.0 without indicators or without any vote, otherwise the
   * mean vote clamped to [-1, 1].
   */
  function TechnicalScore(m: MarketData): (t: real)
    ensures -1.0 <= t <= 1.0
    ensures m.indicators.None? ==> t == 0.0
    ensures Votes(IndicatorsOf(m)) == [] ==> t == 0.0
  {
    var ind := IndicatorsOf(m);
    if m.indicators.None? then 0.0
    else
      var votes := Votes(ind);
      if votes == [] then 0.0 else Max(-1.0, Min(1.0, Sum(votes) / |votes| as real))
  }

  /** Every number of `xs` lies in [-0.7, 0.7]. */
  predicate Within(xs: seq<real>) {
    forall i :: 0 <= i < |xs| ==> -0.7 <= xs[i] <= 0.7
  }

  lemma WithinConcat(xs: seq<real>, ys: seq<real>)
    requires Within(xs) && Within(ys)
    ensures Within(xs + ys)
  {
    assert forall i :: |xs| <= i < |xs + ys| ==> (xs + ys)[i] == ys[i - |xs|];
  }

  /** Every vote lies in [-0.7, 0.7]. */
  lemma VotesBounded(ind: Indicators)
    ensures Within(Votes(ind))
  {
    var a, b, c, d := RsiVotes(ind), MacdVotes(ind), MacdDiffVotes(ind), TrendVotes(ind);
    var e, f, g := LongTrendVotes(ind), BandVotes(ind), VolumeVotes(ind);
    assert Within(a) && Within(b) && Within(c) && Within(d) && Within(e) && Within(f) && Within(g);
    WithinConcat(a, b);
    WithinConcat(a + b, c);
    WithinConcat(a + b + c, d);
    WithinConcat(a + b + c + d, e);
    WithinConcat(a + b + c + d + e, f);
    WithinConcat(a + b + c + d + e + f, g);
  }

  /** Numbers in [-0.7, 0.7] sum to at most 0.7 per number in magnitude. */
  lemma {:induction false} SumBounded(xs: seq<real>, n: real)
    requires Within(xs) && n == |xs| as real
    ensures -(0.7 * n) <= Sum(xs) <= 0.7 * n
  {
    if xs != [] {
      var init := xs[..|xs| - 1];
      assert Within(init) by {
        assert forall i :: 0 <= i < |init| ==> init[i] == xs[i];
      }
      SumBounded(init, n - 1.0);
    }
  }

  /** The mean of a non-empty run of numbers in [-0.7, 0.7] lies in [-0.7, 0.7]. */
  lemma MeanOfWithin(xs: seq<real>)
    requires Within(xs) && xs != []
    ensures -0.7 <= Sum(xs) / |xs| as real <= 0.7
  {
    var n := |xs| as real;
    SumBounded(xs, n);
    MeanWithin(Sum(xs), n, 0.7);
  }

  /**
   * Since every vote lies in [-0.7, 0.7], so does their mean: the clamp to [-1, 1]
   * never changes the mean vote.
   */
  lemma ClampNeverBinds(m: MarketData)
    requires m.indicators.Some? && Votes(IndicatorsOf(m)) != []
    ensures var votes := Votes(IndicatorsOf(m));
      TechnicalScore(m) == Sum(votes) / |votes| as real && -0.7 <= TechnicalScore(m) <= 0.7
  {
    var votes := Votes(IndicatorsOf(m));
    VotesBounded(IndicatorsOf(m));
    MeanOfWithin(votes);
  }

  /** A present RSI casts exactly one vote, bullish exactly when the RSI is below 50. */
  lemma RsiCastsOneVote(ind: Indicators, rsi: real)
    requires ind.rsi == Some(rsi)
    ensures |RsiVotes(ind)| == 1
    ensures RsiVotes(ind)[0] > 0.0 <==> rsi < 50.0
    ensures RsiVotes(ind)[0] == 0.7 <==> rsi < 30.0
    ensures RsiVotes(ind)[0] == -0.7 <==> rsi > 70.0
  {
  }

  /** Volume within [0.5, 1.5] times its moving average casts no vote, so it does not weigh on the mean. */
  lemma VolumeInsideBandIsSilent(ind: Indicators)
    requires Truthy(ind.volume) && Truthy(ind.volumeSma)
    ensures var v, s := ind.volume.value, ind.volumeSma.value;
      VolumeVotes(ind) == [] <==> s * 0.5 <= v <= s * 1.5
  {
  }

  /** An indicator of 0.0 is absent for the truthiness-gated groups: a zero MA 200 casts no long-trend vote. */
  lemma ZeroIsAbsent(ind: Indicators)
    requires ind.ma200 == Some(0.0) || ind.currentPrice == Some(0.0)
    ensures LongTrendVotes(ind) == []
  {
  }

  // Technical confidence

  /** How many of RSI, MACD, MA 20, MA 50, MA 200 and the upper band are not `None`. */
  function Presence(ind: Indicators): (n: nat)
    ensures n <= 6
  {
    (if ind.rsi.Some? then 1 else 0) + (if ind.macd.Some? then 1 else 0)
      + (if ind.ma20.Some? then 1 else 0) + (if ind.ma50.Some? then 1 else 0)
      + (if ind.ma200.Some? then 1 else 0) + (if ind.bbHigh.Some? then 1 else 0)
  }

  /**
   * The technical confidence: 0.3 without indicators, otherwise 0.4 plus a tenth per
   * indicator present, capped at 1.0; with at most six indicators the cap never binds.
   */
  function TechnicalConfidence(m: MarketData): (c: real)
    ensures m.indicators.None? ==> c == 0.3
    ensures m.indicators.Some? ==>
      && 0.4 <= c <= 1.0
      && c == 0.4 + Presence(IndicatorsOf(m)) as real / 10.0
  {
    var ind := IndicatorsOf(m);
    if m.indicators.None? then 0.3 else Min(1.0, 0.4 + Presence(ind) as real / 10.0)
  }

  // Signal

  datatype SignalKind = Buy | Sell | Hold

  /** The signal as the strategy reports it. */
  datatype Signal = Signal(
    ticker: string,
    signalType: SignalKind,
    confidence: real,
    sentimentScore: real,
    technicalScore: real,
    finalScore: real,
    reasoning: string,
    technicalIndicators: Option<Indicators>)

  /** Buy strictly above the buy threshold, otherwise sell strictly below the sell threshold, otherwise hold. */
  function Classify(s: Strategy, finalScore: real): (k: SignalKind)
    ensures k == Buy <==> finalScore > s.buyThreshold
    ensures k == Sell <==> finalScore <= s.buyThreshold && finalScore < s.sellThreshold
    ensures k == Hold <==> s.sellThreshold <= finalScore <= s.buyThreshold
  {
    if finalScore > s.buyThreshold then Buy
    else if finalScore < s.sellThreshold then Sell
    else Hold
  }

  /** `weight_s * x + weight_t * y`, the blend used for both the score and the confidence. */
  function Blend(s: Strategy, x: real, y: real): (b: real)
    ensures s.sentimentWeight + s.technicalWeight == 1.0 ==> (x == y ==> b == x)
    ensures s.technicalWeight == 0.0 ==> b == s.sentimentWeight * x
    ensures s.sentimentWeight == 0.0 ==> b == s.technicalWeight * y
  {
    s.sentimentWeight * x + s.technicalWeight * y
  }

  /** `generate_signal`. */
  function GenerateSignal(s: Strategy, ticker: string, sentiment: SentimentInput, m: MarketData): (g: Signal)
    ensures g.finalScore == Blend(s, g.sentimentScore, g.technicalScore)
    ensures g.signalType == Classify(s, g.finalScore)
    ensures g.technicalScore == TechnicalScore(m)
    ensures g.ticker == ticker
    ensures g.sentimentScore == sentiment.weightedScore.GetOr(0.0)
    ensures g.confidence == Blend(s, sentiment.confidence.GetOr(0.5), TechnicalConfidence(m))
    ensures g.reasoning == Reasoning(g.signalType, g.sentimentScore, g.technicalScore, sentiment, m)
    ensures g.technicalIndicators == m.indicators
  {
    var sentimentScore := sentiment.weightedScore.GetOr(0.0);
    var sentimentConfidence := sentiment.confidence.GetOr(0.5);
    var technicalScore := TechnicalScore(m);
    var technicalConfidence := TechnicalConfidence(m);
    var finalScore := Blend(s, sentimentScore, technicalScore);
    var overallConfidence := Blend(s, sentimentConfidence, technicalConfidence);
    var kind := Classify(s, finalScore);
    Signal(ticker, kind, overallConfidence, sentimentScore, technicalScore, finalScore,
           Reasoning(kind, sentimentScore, technicalScore, sentiment, m), m.indicators)
  }

  /** Weights that are non-negative and sum to 1 blend two values into a value between them. */
  lemma BlendBetween(s: Strategy, x: real, y: real)
    requires s.sentimentWeight >= 0.0 && s.technicalWeight >= 0.0 && s.sentimentWeight + s.technicalWeight == 1.0
    ensures Min(x, y) <= Blend(s, x, y) <= Max(x, y)
  {
    var a, b := s.sentimentWeight, s.technicalWeight;
    if x <= y {
      ConvexBetween(a, b, x, y);
    } else {
      ConvexBetween(b, a, y, x);
    }
  }

  /**
   * With normalised non-negative weights, a sentiment score in [-1, 1] gives a final
   * score in [-1, 1], and a sentiment confidence in [0, 1] gives a confidence in [0, 1].
   */
  lemma SignalInRange(s: Strategy, ticker: string, sentiment: SentimentInput, m: MarketData)
    requires s.sentimentWeight >= 0.0 && s.technicalWeight >= 0.0 && s.sentimentWeight + s.technicalWeight == 1.0
    requires -1.0 <= sentiment.weightedScore.GetOr(0.0) <= 1.0
    requires 0.0 <= sentiment.confidence.GetOr(0.5) <= 1.0
    ensures -1.0 <= GenerateSignal(s, ticker, sentiment, m).finalScore <= 1.0
    ensures 0.0 <= GenerateSignal(s, ticker, sentiment, m).confidence <= 1.0
  {
    BlendBetween(s, sentiment.weightedScore.GetOr(0.0), TechnicalScore(m));
    BlendBetween(s, sentiment.confidence.GetOr(0.5), TechnicalConfidence(m));
  }

  /** With a buy threshold above the sell threshold, a signal is a sell exactly when the final score is below the sell threshold. */
  lemma OrderedThresholds(s: Strategy, finalScore: real)
    requires s.sellThreshold <= s.buyThreshold
    ensures Classify(s, finalScore) == Sell <==> finalScore < s.sellThreshold
    ensures Classify(s, finalScore) == Hold ==> s.sellThreshold <= finalScore <= s.buyThreshold
  {
  }

  // Reasoning

  const OversoldRemark: string := "RSI indicates oversold conditions"
  const OverboughtRemark: string := "RSI indicates overbought conditions"
  const BullishMomentum: string := "MACD shows bullish momentum"
  const BearishMomentum: string := "MACD shows bearish momentum"
  const AboveAverage: string := "Price is above 20-day moving average"
  const BelowAverage: string := "Price is below 20-day moving average"

  /** The technical remarks: RSI extremes, MACD momentum and the price against MA 20, at most one each. */
  function RsiRemarks(ind: Indicators): (r: seq<string>)
    ensures |r| <= 1
  {
    var rsi := ind.rsi;
    if Truthy(rsi) && rsi.value < 30.0 then [OversoldRemark]
    else if Truthy(rsi) && rsi.value > 70.0 then [OverboughtRemark]
    else []
  }

  function MomentumRemarks(ind: Indicators): (r: seq<string>)
    ensures |r| <= 1
  {
    var diff := ind.macdDiff;
    if Truthy(diff) then [if diff.value > 0.0 then BullishMomentum else BearishMomentum] else []
  }

  function AverageRemarks(ind: Indicators): (r: seq<string>)
    ensures |r| <= 1
  {
    var price, ma20 := ind.currentPrice, ind.ma20;
    if Truthy(price) && Truthy(ma20) then [if price.value > ma20.value then AboveAverage else BelowAverage] else []
  }

  function TechReasons(ind: Indicators): (r: seq<string>)
    ensures |r| <= 3
  {
    RsiRemarks(ind) + MomentumRemarks(ind) + AverageRemarks(ind)
  }

  const LimitedData: string := "Limited sentiment data available"

  /** The sentiment sentence: the mention count, the label and the score, or a notice that data is limited. */
  function SentimentPart(score: real, sentiment: SentimentInput): (part: string)
    ensures sentiment.totalCount.GetOr(0) <= 0 ==> part == LimitedData
    ensures sentiment.totalCount.GetOr(0) > 0 ==> MentionsOpening <= part
  {
    var count := sentiment.totalCount.GetOr(0);
    if count > 0 then
      "Sentiment analysis (" + IntToString(count) + " mentions) shows " + sentiment.overallSentiment.GetOr("neutral")
        + " sentiment (score: " + Fixed2(score) + ")"
    else LimitedData
  }

  /** The closing words for each kind of signal. */
  function Verdict(kind: SignalKind): string {
    match kind
    case Buy => "BUY signal."
    case Sell => "SELL signal."
    case Hold => "HOLD position."
  }

  /** The closing sentence: both scores to two decimals and the signal. */
  function Conclusion(kind: SignalKind, sentimentScore: real, technicalScore: real): (c: string)
    ensures ". Combined score (" <= c
    ensures |Verdict(kind)| <= |c| && c[|c| - |Verdict(kind)|..] == Verdict(kind)
  {
    ". Combined score (" + Fixed2(sentimentScore) + " sentiment + " + Fixed2(technicalScore) + " technical) suggests "
      + Verdict(kind)
  }

  /** The parts of the explanation before the closing sentence. */
  function ReasoningParts(sentimentScore: real, sentiment: SentimentInput, m: MarketData): seq<string> {
    var tech := TechReasons(IndicatorsOf(m));
    [SentimentPart(sentimentScore, sentiment)]
      + (if tech != [] then ["Technical indicators: " + Join(tech[..if |tech| < 3 then |tech| else 3], ", ")] else [])
  }

  /** `_generate_reasoning`. */
  function Reasoning(kind: SignalKind, sentimentScore: real, technicalScore: real, sentiment: SentimentInput,
                     m: MarketData): (r: string)
    ensures SentimentPart(sentimentScore, sentiment) <= r
    ensures var c := Conclusion(kind, sentimentScore, technicalScore);
      |c| <= |r| && r[|r| - |c|..] == c
  {
    var parts := ReasoningParts(sentimentScore, sentiment, m);
    JoinStartsWithFirst(parts, ". ");
    var joined := Join(parts, ". ");
    var c := Conclusion(kind, sentimentScore, technicalScore);
    assert (joined + c)[..|joined|] == joined;
    joined + c
  }

  const MentionsOpening: string := "Sentiment analysis ("

  /** The sentiment sentence opens with the mention count's preamble exactly when there are mentions. */
  lemma SentimentPartOpening(score: real, sentiment: SentimentInput)
    ensures var part := SentimentPart(score, sentiment);
      && |part| > 0
      && (part[0] == 'L' <==> sentiment.totalCount.GetOr(0) <= 0)
  {
    var count := sentiment.totalCount.GetOr(0);
    if count > 0 {
      var rest := IntToString(count) + " mentions) shows " + sentiment.overallSentiment.GetOr("neutral")
        + " sentiment (score: " + Fixed2(score) + ")";
      assert SentimentPart(score, sentiment) == MentionsOpening + rest;
      assert MentionsOpening[0] == 'S';
    } else {
      assert LimitedData[0] == 'L';
    }
  }

  /** The explanation opens with the limited-data notice exactly when there are no mentions. */
  lemma ReasoningOpening(kind: SignalKind, sentimentScore: real, technicalScore: real, sentiment: SentimentInput,
                         m: MarketData)
    ensures StartsWith(Reasoning(kind, sentimentScore, technicalScore, sentiment, m), LimitedData)
        <==> sentiment.totalCount.GetOr(0) <= 0
  {
    var parts := ReasoningParts(sentimentScore, sentiment, m);
    var head := SentimentPart(sentimentScore, sentiment);
    var r := Reasoning(kind, sentimentScore, technicalScore, sentiment, m);
    JoinStartsWithFirst(parts, ". ");
    SentimentPartOpening(sentimentScore, sentiment);
    assert r[..|head|] == head;
    assert r[0] == head[0];
    if sentiment.totalCount.GetOr(0) <= 0 {
      assert head == LimitedData;
    } else {
      assert LimitedData[0] == 'L';
    }
  }

  /** The explanation closes with the words of its own signal. */
  lemma ReasoningClosing(kind: SignalKind, sentimentScore: real, technicalScore: real, sentiment: SentimentInput,
                         m: MarketData)
    ensures var r := Reasoning(kind, sentimentScore, technicalScore, sentiment, m);
      |Verdict(kind)| <= |r| && r[|r| - |Verdict(kind)|..] == Verdict(kind)
  {
    var joined := Join(ReasoningParts(sentimentScore, sentiment, m), ". ");
    var front := ". Combined score (" + Fixed2(sentimentScore) + " sentiment + " + Fixed2(technicalScore)
      + " technical) suggests ";
    var r := Reasoning(kind, sentimentScore, technicalScore, sentiment, m);
    assert r == (joined + front) + Verdict(kind);
  }

  /** A join of several parts opens with the first part. */
  lemma JoinStartsWithFirst(parts: seq<string>, sep: string)
    requires parts != []
    ensures |parts[0]| <= |Join(parts, sep)| && Join(parts, sep)[..|parts[0]|] == parts[0]
  {
  }

  /**
   * The imperative `_generate_reasoning`: the sentiment sentence, then the technical
   * remarks collected one by one and joined, then the closing sentence.
   */
  method GenerateReasoning(kind: SignalKind, sentimentScore: real, technicalScore: real, sentiment: SentimentInput,
                           m: MarketData) returns (reasoning: string)
    ensures reasoning == Reasoning(kind, sentimentScore, technicalScore, sentiment, m)
  {
    var parts: seq<string> := [];
    var count := sentiment.totalCount.GetOr(0);
    if count > 0 {
      parts := parts + ["Sentiment analysis (" + IntToString(count) + " mentions) shows "
                        + sentiment.overallSentiment.GetOr("neutral") + " sentiment (score: " + Fixed2(sentimentScore) + ")"];
    } else {
      parts := parts + [LimitedData];
    }
    assert parts == [SentimentPart(sentimentScore, sentiment)];
    var tech := CollectRemarks(IndicatorsOf(m));
    if tech != [] {
      parts := parts + ["Technical indicators: " + Join(tech[..if |tech| < 3 then |tech| else 3], ", ")];
    }
    assert parts == ReasoningParts(sentimentScore, sentiment, m);
    reasoning := Join(parts, ". ");
    reasoning := reasoning + Conclusion(kind, sentimentScore, technicalScore);
  }

  /** The technical remarks of `_generate_reasoning`, appended group by group. */
  method CollectRemarks(ind: Indicators) returns (tech: seq<string>)
    ensures tech == TechReasons(ind)
  {
    tech := [];
    var rsi := ind.rsi;
    if Truthy(rsi) {
      if rsi.value < 30.0 {
        tech := tech + [OversoldRemark];
      } else if rsi.value > 70.0 {
        tech := tech + [OverboughtRemark];
      }
    }
    assert tech == RsiRemarks(ind);
    ghost var before := tech;
    var diff := ind.macdDiff;
    if Truthy(diff) {
      if diff.value > 0.0 {
        tech := tech + [BullishMomentum];
      } else {
        tech := tech + [BearishMomentum];
      }
    }
    assert tech == before + MomentumRemarks(ind);
    before := tech;
    var price, ma20 := ind.currentPrice, ind.ma20;
    if Truthy(price) && Truthy(ma20) {
      if price.value > ma20.value {
        tech := tech + [AboveAverage];
      } else {
        tech := tech + [BelowAverage];
      }
    }
    assert tech == before + AverageRemarks(ind);
  }

  /**
   * The imperative `_calculate_technical_score`: the votes appended group by group,
   * then their mean clamped to [-1, 1].
   */
  method CalculateTechnicalScore(m: MarketData) returns (score: real)
    ensures score == TechnicalScore(m)
  {
    if m.indicators.None? {
      return 0.0;
    }
    var scores := CollectVotes(IndicatorsOf(m));
    if scores != [] {
      var average := Sum(scores) / |scores| as real;
      return Max(-1.0, Min(1.0, average));
    }
    return 0.0;
  }

  /**
   * The votes of `_calculate_technical_score`, cast group by group: each group
   * appends its vote, if it has one, to the votes cast so far.
   */
  method CollectVotes(ind: Indicators) returns (scores: seq<real>)
    ensures scores == Votes(ind)
  {
    scores := [];
    scores := CastRsiVote(ind, scores);
    scores := CastMacdVotes(ind, scores);
    scores := CastTrendVote(ind, scores);
    scores := CastLongTrendVote(ind, scores);
    scores := CastBandVote(ind, scores);
    scores := CastVolumeVote(ind, scores);
  }

  method CastRsiVote(ind: Indicators, scores: seq<real>) returns (r: seq<real>)
    ensures r == scores + RsiVotes(ind)
  {
    r := scores;
    var rsi := ind.rsi;
    if rsi.Some? {
      if rsi.value < 30.0 {
        r := r + [0.7];
      } else if rsi.value > 70.0 {
        r := r + [-0.7];
      } else if rsi.value < 50.0 {
        r := r + [0.2];
      } else {
        r := r + [-0.2];
      }
    }
  }

  /** The MACD line against its signal line, then the sign of their difference. */
  method CastMacdVotes(ind: Indicators, scores: seq<real>) returns (r: seq<real>)
    ensures r == scores + MacdVotes(ind) + MacdDiffVotes(ind)
  {
    r := scores;
    var macd, macdSignal, macdDiff := ind.macd, ind.macdSignal, ind.macdDiff;
    if macd.Some? && macdSignal.Some? {
      if macd.value > macdSignal.value {
        r := r + [0.5];
      } else {
        r := r + [-0.3];
      }
    }
    assert r == scores + MacdVotes(ind);
    ghost var before := r;
    if macdDiff.Some? {
      if macdDiff.value > 0.0 {
        r := r + [0.3];
      } else {
        r := r + [-0.3];
      }
    }
    assert r == before + MacdDiffVotes(ind);
  }

  method CastTrendVote(ind: Indicators, scores: seq<real>) returns (r: seq<real>)
    ensures r == scores + TrendVotes(ind)
  {
    r := scores;
    var ma20, ma50, price := ind.ma20, ind.ma50, ind.currentPrice;
    if Truthy(ma20) && Truthy(ma50) && Truthy(price) {
      if price.value > ma20.value && ma20.value > ma50.value {
        r := r + [0.6];
      } else if price.value < ma20.value && ma20.value < ma50.value {
        r := r + [-0.6];
      } else {
        r := r + [0.0];
      }
    }
  }

  method CastLongTrendVote(ind: Indicators, scores: seq<real>) returns (r: seq<real>)
    ensures r == scores + LongTrendVotes(ind)
  {
    r := scores;
    var ma200, price := ind.ma200, ind.currentPrice;
    if Truthy(ma200) && Truthy(price) {
      if price.value > ma200.value {
        r := r + [0.2];
      } else {
        r := r + [-0.2];
      }
    }
  }

  method CastBandVote(ind: Indicators, scores: seq<real>) returns (r: seq<real>)
    ensures r == scores + BandVotes(ind)
  {
    r := scores;
    var high, low, mid, price := ind.bbHigh, ind.bbLow, ind.bbMid, ind.currentPrice;
    if Truthy(high) && Truthy(low) && Truthy(mid) && Truthy(price) {
      if price.value <= low.value {
        r := r + [0.5];
      } else if price.value >= high.value {
        r := r + [-0.5];
      } else {
        r := r + [0.0];
      }
    }
  }

  method CastVolumeVote(ind: Indicators, scores: seq<real>) returns (r: seq<real>)
    ensures r == scores + VolumeVotes(ind)
  {
    r := scores;
    var volume, volumeSma := ind.volume, ind.volumeSma;
    if Truthy(volume) && Truthy(volumeSma) {
      if volume.value > volumeSma.value * 1.5 {
        r := r + [0.2];
      } else if volume.value < volumeSma.value * 0.5 {
        r := r + [-0.1];
      }
    }
  }

  // Position size

  /** The risk fraction `calculate_position_size` uses by default. */
  const DefaultRisk: real := 0.02

  /** The confidence multiplier: `0.5 + 1.5 * confidence` clamped to [0.5, 2.0]. */
  function Multiplier(confidence: real): (k: real)
    ensures 0.5 <= k <= 2.0
  {
    Min(2.0, Max(0.5, 0.5 + confidence * 1.5))
  }

  /**
   * `calculate_position_size`: the capital at risk times the confidence multiplier,
   * damped by the volatility.
   */
  function PositionSize(capital: real, confidence: real, volatility: Option<real>, risk: real): (r: Result<real, string>)
    ensures r.Failure? <==> Truthy(volatility) && 1.0 + volatility.value == 0.0
  {
    Damped(capital * risk * Multiplier(confidence), volatility)
  }

  /**
   * The last step of `calculate_position_size`: a size divided by `1 + volatility` when
   * the volatility is truthy; a volatility of -1 divides by zero, which Python raises.
   */
  function Damped(size: real, volatility: Option<real>): (r: Result<real, string>)
    ensures r.Failure? <==> Truthy(volatility) && 1.0 + volatility.value == 0.0
  {
    if Truthy(volatility) then
      if 1.0 + volatility.value == 0.0 then Failure("float division by zero")
      else Success(size * (1.0 / (1.0 + volatility.value)))
    else Success(size)
  }

  /** Damping by a volatility above -1 keeps the order of two sizes. */
  lemma DampedMonotone(s1: real, s2: real, volatility: Option<real>)
    requires s1 <= s2
    requires !Truthy(volatility) || 1.0 + volatility.value > 0.0
    ensures Damped(s1, volatility).Success? && Damped(s2, volatility).Success?
    ensures Damped(s1, volatility).value <= Damped(s2, volatility).value
  {
    if Truthy(volatility) {
      var x := 1.0 + volatility.value;
      ReciprocalPositive(x);
      ScaleMonotone(s1, s2, 1.0 / x);
    }
  }

  /** Without a truthy volatility, a non-negative capital at risk is scaled by between 0.5 and 2. */
  lemma PositionSizeBounds(capital: real, confidence: real, volatility: Option<real>, risk: real)
    requires !Truthy(volatility) && capital * risk >= 0.0
    ensures PositionSize(capital, confidence, volatility, risk).Success?
    ensures var size := PositionSize(capital, confidence, volatility, risk).value;
      0.5 * (capital * risk) <= size <= 2.0 * (capital * risk)
  {
    var k := Multiplier(confidence);
    ScaleMonotone(0.5, k, capital * risk);
    ScaleMonotone(k, 2.0, capital * risk);
  }

  /** More confidence never gives a smaller position, whatever the volatility. */
  lemma PositionSizeMonotone(capital: real, c1: real, c2: real, volatility: Option<real>, risk: real)
    requires c1 <= c2 && capital * risk >= 0.0
    requires !Truthy(volatility) || 1.0 + volatility.value > 0.0
    ensures PositionSize(capital, c1, volatility, risk).Success? && PositionSize(capital, c2, volatility, risk).Success?
    ensures PositionSize(capital, c1, volatility, risk).value <= PositionSize(capital, c2, volatility, risk).value
  {
    ScaleMonotone(Multiplier(c1), Multiplier(c2), capital * risk);
    DampedMonotone(capital * risk * Multiplier(c1), capital * risk * Multiplier(c2), volatility);
  }

  /** A truthy volatility other than -1 divides the unscaled size by `1 + volatility`. */
  lemma VolatilityScales(capital: real, confidence: real, v: real, risk: real)
    requires v != 0.0 && 1.0 + v != 0.0
    ensures PositionSize(capital, confidence, Some(v), risk)
         == Success(PositionSize(capital, confidence, None, risk).value / (1.0 + v))
  {
    var size := capital * risk * Multiplier(confidence);
    assert PositionSize(capital, confidence, None, risk) == Success(size);
    assert Truthy(Some(v));
    assert PositionSize(capital, confidence, Some(v), risk).Success?;
    assert PositionSize(capital, confidence, Some(v), risk).value == size * (1.0 / (1.0 + v));
    TimesReciprocal(size, 1.0 + v);
    assert size * (1.0 / (1.0 + v)) == size / (1.0 + v);
    assert PositionSize(capital, confidence, None, risk).value / (1.0 + v) == size / (1.0 + v);
  }
}
