# sentiment-trading, modelled in Dafny

This project models the core of a sentiment-driven trading system and proves
properties of the model.

- A **budget gateway** (`RateLimiter`) sits in front of a costed language-model
  service. It enforces a per-minute window, a per-day request ceiling and a
  per-day cost ceiling.
- A **cost tracker** books each reply's price per day.
- A **sentiment analyzer** caches replies by ticker and text prefix. It cleans
  the returned JSON, analyzes texts in batches with a refusal fill, and
  aggregates many records into one summary.
- A **trading strategy** blends an aggregated sentiment score with a vote over
  technical indicators. The result is a buy, sell or hold signal with a
  confidence and a one-sentence explanation, plus a position size.
- A **backtesting engine** replays the strategy day by day over a ticker's daily
  closes. It keeps a cash/shares ledger with a proportional transaction cost and
  scores the run: total return, maximum drawdown, win rate, and return against
  the S&P 500.

Files and modules:

- `wrappers.dfy` (`Wrappers`): `Option` and `Result`.
- `text.dfy` (`Text`): Python's `strip`, `startswith`, `split`, `lower`, `join`
  and number formatting, on `seq<char>`.
- `numbers.dfy` (`Numbers`): truncation toward zero, `min`/`max`, and small
  real-arithmetic facts.
- `rate_limiter.dfy` (`RateLimiting`):
  - the gateway's counters as a value (`Counters`), with one pure transition per
    private method;
  - the classes `RateLimiter` and `CostTracker`, whose methods update their
    fields and are proved against those transitions.
- `gpt_analyzer.dfy` (`SentimentAnalysis`):
  - cache key, fence stripping and decoding;
  - `Analyze` and `BatchFrom` as transitions of the analyzer's state;
  - the class `SentimentAnalyzer`, whose methods change the cache, the gateway
    and the cost tracker in place;
  - the aggregation loop as a method proved against `Aggregate`.
- `trading_strategy.dfy` (`Trading`):
  - the strategy as pure functions;
  - the imperative vote, remark and reasoning builders, proved equal to them.
    Each `Cast…Vote` method appends exactly the votes of its `…Votes` function:
    `CastRsiVote` those of `RsiVotes`, `CastMacdVotes` those of `MacdVotes` and
    `MacdDiffVotes`, and so on. `CollectVotes` chains them into `Votes`.
- `backtesting_engine.dfy` (`Backtesting`):
  - the run as a pure specification (`Backtest`, `Replay`, `Summarize`);
  - the imperative day loop and win-rate loop (`RunBacktest`, `SimulateDays`,
    `WinRate`), proved equal to it.

Conventions:

- Dates are day numbers. An instant is a real number of seconds.
- The wall clock, the language-model call, `json.loads`, the market data
  fetchers and the indicator library are arguments of the operations that use
  them.

## Model

| member | source | states |
|---|---|---|
| RateLimiting.Since | src/sentiment/rate_limiter.py:71-75 | keeps exactly the entries dated on or after the cutoff, values untouched |
| RateLimiting.CountOn | src/sentiment/rate_limiter.py:98 | the `defaultdict(int)` read: the stored count, 0 for a missing day |
| RateLimiting.CostOn | src/sentiment/rate_limiter.py:102 | the `defaultdict(float)` read: the stored cost, 0.0 for a missing day |
| RateLimiting.Recent | src/sentiment/rate_limiter.py:80-81 | keeps exactly the instants after the cutoff (same multiplicities), in their order, never more |
| RateLimiting.RecentDrops | src/sentiment/rate_limiter.py:81 | an instant at or before the cutoff makes the cleaned window strictly shorter |
| RateLimiting.RecentLater | src/sentiment/rate_limiter.py:77-81 | cleaning at a later cutoff after an earlier one is cleaning at the later one |
| RateLimiting.AfterReset | src/sentiment/rate_limiter.py:65-75 | same day: nothing changes; new day: the date moves and both dictionaries keep exactly the entries dated 7 days back or later, untouched |
| RateLimiting.ResetIdempotent | src/sentiment/rate_limiter.py:65-75 | a second reset on the same day changes nothing |
| RateLimiting.AfterClean | src/sentiment/rate_limiter.py:77-81 | only the window changes, to the instants of the last 60 seconds |
| RateLimiting.Verdict | src/sentiment/rate_limiter.py:92-105 | each refusal holds exactly when its ceiling is the first to fail (`>=`), and admission exactly when all three pass |
| RateLimiting.Message | src/sentiment/rate_limiter.py:93-103 | each refusal's message opens with the words of its own ceiling: "Rate limit exceeded: ", "Daily limit exceeded: ", "Daily cost limit exceeded: $" |
| RateLimiting.Check | src/sentiment/rate_limiter.py:83-105 | the check resets for today and keeps only the last 60 seconds of the window, leaves the day dictionaries as the reset left them, and admits exactly when the window, the day's count and the day's cost are all below their ceilings |
| RateLimiting.WindowShrinks | src/sentiment/rate_limiter.py:77-81 | once the oldest instant is 60 seconds old, the window is smaller |
| RateLimiting.PerMinuteAdmissionResumes | src/sentiment/rate_limiter.py:89-94 | a full window refuses per minute, and that refusal lifts once its oldest instant has aged out |
| RateLimiting.EstimatedCost | src/sentiment/rate_limiter.py:122-129 | for a non-negative count: never negative, never above the untruncated 70% input / 30% output price ($0.285 per million tokens), and below it by less than $0.75 per million |
| RateLimiting.AfterRecord | src/sentiment/rate_limiter.py:107-130 | after the reset, one instant is appended, today's count grows by one and today's cost by the estimate; no other day changes |
| RateLimiting.DayCountersNeverDecrease | src/sentiment/rate_limiter.py:120-130 | recording on the same day raises the count by one and never lowers the cost |
| RateLimiting.Oldest | src/sentiment/rate_limiter.py:142 | `min` of a non-empty window: a member no greater than any other |
| RateLimiting.WaitFor | src/sentiment/rate_limiter.py:135-145 | never negative, and zero unless the window is full |
| RateLimiting.WaitReopensWindow | src/sentiment/rate_limiter.py:139-145 | on a full window the sleep is `60 - (now - oldest) + 1`, over a second, and after it the oldest instant has left the window |
| RateLimiting.StatsOf | src/sentiment/rate_limiter.py:147-164 | the window length, today's count and cost, both ceilings, and the budget left as the cost ceiling minus today's cost |
| RateLimiting.VerdictAsWritten | src/sentiment/rate_limiter.py:98-103 | with the window below its ceiling, the plain-dictionary lookup raises on a day without a request entry; with both entries present it agrees with `Verdict` |
| RateLimiting.NewDayCheckRaises | src/sentiment/rate_limiter.py:47-48 | a concrete reloaded state whose check raises while the intended check admits |
| RateLimiting.RateLimiter.constructor | src/sentiment/rate_limiter.py:14-50 | the configured limits (per-token rate = argument / 1000), an empty window, today's date, and the saved dictionaries or empty ones |
| RateLimiting.RateLimiter.ResetIfNewDay | src/sentiment/rate_limiter.py:65-75 | the fields become `AfterReset` of the old fields |
| RateLimiting.RateLimiter.CleanOldTimestamps | src/sentiment/rate_limiter.py:77-81 | the fields become `AfterClean` of the old fields |
| RateLimiting.RateLimiter.CheckRateLimit | src/sentiment/rate_limiter.py:83-105 | the refusal and the new fields are `Check` of the old ones; allowed exactly when there is no refusal |
| RateLimiting.RateLimiter.RecordRequest | src/sentiment/rate_limiter.py:107-130 | the fields become `AfterRecord` of the old fields |
| RateLimiting.RateLimiter.WaitIfNeeded | src/sentiment/rate_limiter.py:135-145 | cleans the window and returns the sleep `WaitFor` computes on it |
| RateLimiting.RateLimiter.GetStats | src/sentiment/rate_limiter.py:147-164 | resets the day, then reports `StatsOf` the reset fields |
| RateLimiting.SumCostsSplit | src/sentiment/rate_limiter.py:233 | the sum of a cost dictionary does not depend on the order of its entries |
| RateLimiting.SumCostsNonNegative | src/sentiment/rate_limiter.py:233 | non-negative costs sum to a non-negative total |
| RateLimiting.SumCostsSubmap | src/sentiment/rate_limiter.py:233 | dropping non-negative entries never raises the sum |
| RateLimiting.SumCostsSingle | src/sentiment/rate_limiter.py:233 | the sum of one entry is that entry |
| RateLimiting.SumCosts | src/sentiment/rate_limiter.py:233 | a dictionary of zero costs sums to 0.0 |
| RateLimiting.TotalSince | src/sentiment/rate_limiter.py:232-233 | a window holding no entry totals 0.0, and non-negative costs total at least 0.0 |
| RateLimiting.TotalsNested | src/sentiment/rate_limiter.py:223-247 | with non-negative entries: 0 <= today's cost <= a shorter total <= a longer total |
| RateLimiting.AddCostTo | src/sentiment/rate_limiter.py:200-207 | today's entry (0.0 when absent) grows by the amount; no other entry changes |
| RateLimiting.AddCostAsWritten | src/sentiment/rate_limiter.py:176-207 | as written: a loaded tracker raises `KeyError` on a day without an entry; otherwise the same as `AddCostTo` |
| RateLimiting.TotalAfterAddCost | src/sentiment/rate_limiter.py:200-233 | a cost added today raises every total over a window that includes today by exactly that amount |
| RateLimiting.TotalIgnoresOlder | src/sentiment/rate_limiter.py:232-233 | entries older than the cutoff do not affect a total |
| RateLimiting.CostTracker.constructor | src/sentiment/rate_limiter.py:170-185 | today's date and the saved cost file, or no entries |
| RateLimiting.CostTracker.AddCost | src/sentiment/rate_limiter.py:200-208 | the entries become `AddCostTo` of the old entries |
| RateLimiting.CostTracker.SavedCosts | src/sentiment/rate_limiter.py:187-196 | what is saved: exactly the entries of the last 30 days, untouched |
| RateLimiting.CostTracker.DailyCost | src/sentiment/rate_limiter.py:210-221 | the day's entry, 0.0 when absent |
| RateLimiting.CostTracker.TotalCost | src/sentiment/rate_limiter.py:223-233 | with non-negative entries and a non-negative window, at least today's cost and never negative |
| RateLimiting.CostTracker.Stats | src/sentiment/rate_limiter.py:235-247 | today's cost and the 7- and 30-day totals, nested when every entry is non-negative |
| SentimentAnalysis.KeyPrefix | src/sentiment/gpt_analyzer.py:53 | `text[:200]`: the first 200 characters, or all of a shorter text |
| SentimentAnalysis.CacheKey | src/sentiment/gpt_analyzer.py:53 | the key is the ticker part and a colon followed by the text's first characters, at most 200 of them |
| SentimentAnalysis.SameKeyIffSamePrefix | src/sentiment/gpt_analyzer.py:43-54 | for one ticker, two texts share a cache key exactly when their first 200 characters agree |
| SentimentAnalysis.StripFences | src/sentiment/gpt_analyzer.py:142-149 | a reply without a leading fence is only stripped, and the result never has surrounding whitespace |
| SentimentAnalysis.FencedReplyIsFenceFree | src/sentiment/gpt_analyzer.py:145-149 | a fenced reply leaves no fence in what is decoded |
| SentimentAnalysis.FencedBlockRoundTrip | src/sentiment/gpt_analyzer.py:145-149 | a ```` ```json ```` block around a body without backticks gives back the stripped body |
| SentimentAnalysis.NormalizeKeepsFields | src/sentiment/gpt_analyzer.py:170-175 | a complete record passes through unchanged, and an empty one gets the defaults neutral / 0.0 / "" / 0.5 |
| SentimentAnalysis.Normalize | src/sentiment/gpt_analyzer.py:170-175 | each present field passes through; missing ones become "neutral", 0.0, "" and 0.5 |
| SentimentAnalysis.Interpret | src/sentiment/gpt_analyzer.py:142-175 | an object reply is normalised; a reply that cannot be read fails with its message; an undecodable reply without braces gives the "Unable to parse sentiment" record; one with braces succeeds exactly when the brace span decodes to an object |
| SentimentAnalysis.FirstIndex | src/sentiment/gpt_analyzer.py:157 | the first position of a character, or none when it is absent |
| SentimentAnalysis.LastIndex | src/sentiment/gpt_analyzer.py:157 | the last position of a character, or none when it is absent |
| SentimentAnalysis.BraceSpan | src/sentiment/gpt_analyzer.py:157 | the greedy `\{.*\}` match exists exactly when some `{` precedes some `}`, and it runs from a `{` to a `}` |
| SentimentAnalysis.ReplyCost | src/sentiment/gpt_analyzer.py:133-135 | $0.15 and $0.60 per million tokens: never negative for non-negative counts |
| SentimentAnalysis.Analyze | src/sentiment/gpt_analyzer.py:56-190 | a cache hit returns the cached record and changes nothing; the cache changes at most at the text's key, to the returned record; the costs change only on an answered call |
| SentimentAnalysis.Admitted | src/sentiment/gpt_analyzer.py:85-190 | a failed call returns the error record and changes nothing; an answered call is recorded with the gateway and its cost is booked for today; a decoded reply is returned and cached under the key, an undecodable one gives the error record and leaves the cache alone |
| SentimentAnalysis.AdmittedAsWritten | src/sentiment/gpt_analyzer.py:137-190 | as written: the same as `Admitted` unless the tracker was loaded and today has no entry; then an answered call gives the `KeyError` error record, the gateway has booked it, and the costs and cache are unchanged |
| SentimentAnalysis.LoadedTrackerLosesReply | src/sentiment/gpt_analyzer.py:137-178 | with a loaded tracker on a new day, a decodable reply is lost as written but returned, cached and costed by `Admitted` |
| SentimentAnalysis.CacheHitLeavesStateAlone | src/sentiment/gpt_analyzer.py:66-69 | a cache hit returns the cached record, and the cache, gateway and costs stay unchanged |
| SentimentAnalysis.RefusalIsNotCached | src/sentiment/gpt_analyzer.py:71-80 | a refusal returns the neutral "Rate limit: " record of the first failing ceiling and changes only the gateway's checked counters |
| SentimentAnalysis.CacheOnlyGrowsOnSuccess | src/sentiment/gpt_analyzer.py:66-180 | cached entries never change, and a new entry is only the text's own key, holding a decoded reply |
| SentimentAnalysis.MissesAreNeutral | src/sentiment/gpt_analyzer.py:72-190 | every outcome that is neither a hit nor a decoded reply is neutral with score and confidence 0.0, its reason starting "Rate limit: " or "Error: ", and the cache is unchanged |
| SentimentAnalysis.AnsweredCallIsBooked | src/sentiment/gpt_analyzer.py:127-139 | an admitted, answered call adds one request and one instant, the reply's price to the tracker, and the estimate to the gateway, whether or not the reply decodes |
| SentimentAnalysis.NoWaitAfterAdmission | src/sentiment/gpt_analyzer.py:72-83 | the wait after an admitting check is always zero |
| SentimentAnalysis.RepeatIsCacheHit | src/sentiment/gpt_analyzer.py:67-178 | once a reply is cached, analyzing the same text again returns that record and changes nothing |
| SentimentAnalysis.AnalyzeFirst | src/sentiment/gpt_analyzer.py:230-233 | one record per text analyzed |
| SentimentAnalysis.AnalyzeEach | src/sentiment/gpt_analyzer.py:229-236 | one record per text of the batch |
| SentimentAnalysis.SliceTo | src/sentiment/gpt_analyzer.py:207 | Python's `s[:n]`, a negative `n` counting from the end |
| SentimentAnalysis.BatchFromRefused | src/sentiment/gpt_analyzer.py:216-227 | a refused check fills every remaining position with "Rate limit reached" and analyzes nothing more |
| SentimentAnalysis.BatchFromAdmitted | src/sentiment/gpt_analyzer.py:229-236 | an admitted check gives the batch's records followed by those of the rest of the run |
| SentimentAnalysis.BatchFrom | src/sentiment/gpt_analyzer.py:212-237 | the run gives exactly one record per remaining position |
| SentimentAnalysis.Batch | src/sentiment/gpt_analyzer.py:205-238 | a zero batch size fails as `range` does, a negative one gives no records, a positive one gives one record per kept text |
| SentimentAnalysis.BatchLength | src/sentiment/gpt_analyzer.py:205-238 | a positive batch size gives exactly one record per kept text, `min(len, max_texts)` of them |
| SentimentAnalysis.AnalyzeFirstInOrder | src/sentiment/gpt_analyzer.py:231-233 | the k-th record is the analysis of the k-th text at its own position, from the state the first k analyses left |
| SentimentAnalysis.WithinBatchInOrder | src/sentiment/gpt_analyzer.py:231-233 | inside a batch, the record at position j analyzes text j from the state the batch's earlier texts left |
| SentimentAnalysis.BatchFromInOrder | src/sentiment/gpt_analyzer.py:212-237 | the record at position j is the refusal fill when a check refused before it, and otherwise the analysis of text j from `StateBefore`, the state the earlier checks and analyses left |
| SentimentAnalysis.BatchInOrder | src/sentiment/gpt_analyzer.py:205-238 | the same for the whole of `batch_analyze`: record j is the refusal fill or `analyze_sentiment` of kept text j, with position j's clock and answer, from the state everything before it left |
| SentimentAnalysis.RefusalFillsTheRest | src/sentiment/gpt_analyzer.py:216-227 | a refusal before the batch at position i fills every remaining position with the refusal record |
| SentimentAnalysis.SentimentAnalyzer.constructor | src/sentiment/gpt_analyzer.py:15-41 | an empty cache, a gateway of 60 per minute, 1000 per day and the given daily cost, and a tracker, each loaded from its saved file |
| SentimentAnalysis.SentimentAnalyzer.AnalyzeSentiment | src/sentiment/gpt_analyzer.py:56-190 | the record and the new cache, gateway and tracker are `Analyze` of the old state |
| SentimentAnalysis.SentimentAnalyzer.Answer | src/sentiment/gpt_analyzer.py:85-190 | the admitted part: the record and new state are `Admitted` of the old state |
| SentimentAnalysis.SentimentAnalyzer.AnalyzeBatch | src/sentiment/gpt_analyzer.py:229-236 | the loop over one batch gives `AnalyzeEach` of the old state |
| SentimentAnalysis.SentimentAnalyzer.AnalyzeNext | src/sentiment/gpt_analyzer.py:231-233 | one turn of that loop extends `AnalyzeFirst` by one text |
| SentimentAnalysis.SentimentAnalyzer.RunBatch | src/sentiment/gpt_analyzer.py:212-236 | one pass: on a refusal the run ends with the fill; otherwise the batch's records, followed by the rest of the run |
| SentimentAnalysis.SentimentAnalyzer.RunAdmitted | src/sentiment/gpt_analyzer.py:229-236 | the admitted pass gives the batch's records, followed by the rest of the run |
| SentimentAnalysis.SentimentAnalyzer.RunBatches | src/sentiment/gpt_analyzer.py:212-237 | the loop over batches gives `BatchFrom` of the old state from position 0 |
| SentimentAnalysis.SentimentAnalyzer.BatchAnalyze | src/sentiment/gpt_analyzer.py:192-238 | a zero batch size raises and changes nothing; otherwise the records and the new state are `Batch` of the old state |
| SentimentAnalysis.SentimentAnalyzer.GetUsageStats | src/sentiment/gpt_analyzer.py:240-252 | the gateway's reset figures, with the tracker's `cost_today` replacing the gateway's, and the budget still from the gateway's estimate |
| SentimentAnalysis.Merge | src/sentiment/gpt_analyzer.py:249-252 | every field comes from its own dictionary; on the shared `cost_today` the cost tracker's figure wins |
| SentimentAnalysis.LabelCount | src/sentiment/gpt_analyzer.py:284-291 | counts the records with one lower-cased label, never more than all of them |
| SentimentAnalysis.Overall | src/sentiment/gpt_analyzer.py:303-308 | bullish exactly above 0.3, bearish exactly below -0.3, neutral in between |
| SentimentAnalysis.LabelCountsFit | src/sentiment/gpt_analyzer.py:279-291 | the three label counts together never exceed the number of records |
| SentimentAnalysis.Tallies | src/sentiment/gpt_analyzer.py:263-299 | the total count is the number of records, the label counts fit in it, and only no records give the fixed empty summary |
| SentimentAnalysis.WeightedBounded | src/sentiment/gpt_analyzer.py:287 | a score in [-1, 1] times a non-negative confidence stays within that confidence |
| SentimentAnalysis.WeightedSumBounded | src/sentiment/gpt_analyzer.py:287-288 | the weighted sum stays within the total confidence, which is non-negative |
| SentimentAnalysis.ScoreSumBounded | src/sentiment/gpt_analyzer.py:286-294 | scores in [-1, 1] sum to at most their number in magnitude |
| SentimentAnalysis.ScoresStayInRange | src/sentiment/gpt_analyzer.py:294-295 | scores in [-1, 1] with non-negative confidences give an average and a weighted score in [-1, 1] |
| SentimentAnalysis.OverallFollowsWeighted | src/sentiment/gpt_analyzer.py:294-308 | the label follows the weighted score, which is the confidence-weighted mean, or the plain mean when the confidences sum to 0 or less |
| SentimentAnalysis.Aggregate | src/sentiment/gpt_analyzer.py:254-321 | no records give the fixed empty summary; otherwise the plain mean score, the weighted mean (the plain mean without positive confidence), the mean confidence, the three label counts, the total and the two percentages, with the overall label read off the weighted mean |
| SentimentAnalysis.AggregateSentiment | src/sentiment/gpt_analyzer.py:254-321 | the imperative aggregation returns `Aggregate` of the records |
| SentimentAnalysis.Accumulate | src/sentiment/gpt_analyzer.py:276-291 | the accumulation loop computes the weighted sum, the confidence sum, the score sum and the three label counts |
| Trading.NewStrategy | src/strategy/trading_strategy.py:10-29 | a positive total weight is divided out, so each weight keeps its share and they sum to 1; otherwise both weights stay as given |
| Trading.TechnicalScore | src/strategy/trading_strategy.py:84-180 | in [-1, 1], and 0.0 without indicators or without any vote |
| Trading.RsiVotes | src/strategy/trading_strategy.py:99-109 | one vote exactly when the RSI is present, bullish exactly below 50, never zero |
| Trading.MacdVotes | src/strategy/trading_strategy.py:111-120 | one vote exactly when MACD and its signal are present, bullish exactly when MACD is above the signal |
| Trading.MacdDiffVotes | src/strategy/trading_strategy.py:122-126 | one vote exactly when the histogram is present, bullish exactly when it is positive |
| Trading.TrendVotes | src/strategy/trading_strategy.py:128-143 | one vote exactly when price, MA 20 and MA 50 are truthy; bullish exactly when stacked upward, bearish exactly when stacked downward |
| Trading.LongTrendVotes | src/strategy/trading_strategy.py:145-149 | one vote exactly when MA 200 and the price are truthy, bullish exactly above MA 200 |
| Trading.BandVotes | src/strategy/trading_strategy.py:151-162 | one vote exactly when the bands and the price are truthy; bullish exactly at or below the low band, bearish exactly at or above the high band otherwise |
| Trading.VolumeVotes | src/strategy/trading_strategy.py:164-172 | one vote exactly when volume and its average are truthy and volume lies outside [0.5, 1.5] times the average; bullish exactly above |
| Trading.Votes | src/strategy/trading_strategy.py:97-172 | at most seven votes, the RSI vote first and the volume vote last |
| Trading.VotesBounded | src/strategy/trading_strategy.py:97-172 | every vote any indicator group casts lies in [-0.7, 0.7] |
| Trading.SumBounded | src/strategy/trading_strategy.py:176 | n votes in [-0.7, 0.7] sum to at most 0.7 n in magnitude |
| Trading.MeanOfWithin | src/strategy/trading_strategy.py:176 | their mean lies in [-0.7, 0.7] |
| Trading.ClampNeverBinds | src/strategy/trading_strategy.py:174-178 | the clamp to [-1, 1] never changes the mean vote, which stays in [-0.7, 0.7] |
| Trading.RsiCastsOneVote | src/strategy/trading_strategy.py:99-109 | a present RSI casts one vote: bullish exactly below 50, +0.7 exactly below 30, -0.7 exactly above 70 |
| Trading.VolumeInsideBandIsSilent | src/strategy/trading_strategy.py:164-172 | volume casts no vote exactly when it lies within [0.5, 1.5] times its average |
| Trading.ZeroIsAbsent | src/strategy/trading_strategy.py:145 | a zero MA 200 or price casts no long-trend vote, because presence is truthiness there |
| Trading.Presence | src/strategy/trading_strategy.py:196-203 | at most six indicators are counted |
| Trading.TechnicalConfidence | src/strategy/trading_strategy.py:182-207 | 0.3 without indicators; otherwise 0.4 plus a tenth per indicator present, in [0.4, 1.0], the cap never binding |
| Trading.Classify | src/strategy/trading_strategy.py:59-65 | buy exactly above the buy threshold, sell exactly when not buy and below the sell threshold, hold otherwise |
| Trading.Blend | src/strategy/trading_strategy.py:52-57 | with weights summing to 1 a value blended with itself is that value; a zero weight drops its side |
| Trading.GenerateSignal | src/strategy/trading_strategy.py:31-82 | the signal carries the ticker, the sentiment score (0.0 when absent), the technical score, their weighted blend as final score and its classification, the blend of the sentiment confidence (0.5 when absent) and the technical confidence, the explanation of those scores, and the indicators as given |
| Trading.BlendBetween | src/strategy/trading_strategy.py:52-57 | normalised non-negative weights blend two values into a value between them |
| Trading.SignalInRange | src/strategy/trading_strategy.py:43-57 | a sentiment score in [-1, 1] and a confidence in [0, 1] give a final score in [-1, 1] and a confidence in [0, 1] |
| Trading.OrderedThresholds | src/strategy/trading_strategy.py:59-65 | with the sell threshold at or below the buy threshold, sell exactly below the sell threshold |
| Trading.RsiRemarks | src/strategy/trading_strategy.py:242-247 | at most one RSI remark |
| Trading.MomentumRemarks | src/strategy/trading_strategy.py:249-254 | at most one MACD remark |
| Trading.AverageRemarks | src/strategy/trading_strategy.py:256-262 | at most one moving-average remark |
| Trading.TechReasons | src/strategy/trading_strategy.py:240-262 | at most three technical remarks, so the `[:3]` cut never drops one |
| Trading.SentimentPartOpening | src/strategy/trading_strategy.py:224-236 | the sentiment sentence is non-empty and opens with the limited-data notice exactly when there are no mentions |
| Trading.SentimentPart | src/strategy/trading_strategy.py:224-236 | without mentions the sentence is the limited-data notice; with mentions it opens with the mention count's preamble |
| Trading.Conclusion | src/strategy/trading_strategy.py:270-276 | opens with ". Combined score (" and ends with the words of its own signal |
| Trading.Reasoning | src/strategy/trading_strategy.py:209-278 | the explanation opens with the sentiment sentence and ends with the closing sentence |
| Trading.ReasoningOpening | src/strategy/trading_strategy.py:224-268 | the explanation starts with "Limited sentiment data available" exactly when the mention count is 0 or missing |
| Trading.ReasoningClosing | src/strategy/trading_strategy.py:270-276 | the explanation ends with the words of its own signal |
| Trading.GenerateReasoning | src/strategy/trading_strategy.py:209-278 | the imperative builder returns `Reasoning` |
| Trading.CollectRemarks | src/strategy/trading_strategy.py:238-262 | the remarks appended group by group are `TechReasons` |
| Trading.CalculateTechnicalScore | src/strategy/trading_strategy.py:84-180 | the imperative score is `TechnicalScore` |
| Trading.CollectVotes | src/strategy/trading_strategy.py:97-172 | the votes appended group by group are `Votes` |
| Trading.CastRsiVote | src/strategy/trading_strategy.py:99-109 | appends exactly `RsiVotes`: the RSI vote, if any |
| Trading.CastMacdVotes | src/strategy/trading_strategy.py:111-126 | appends exactly `MacdVotes` then `MacdDiffVotes`: the crossover vote and the difference vote, if any |
| Trading.CastTrendVote | src/strategy/trading_strategy.py:128-143 | appends exactly `TrendVotes`: the MA 20 / MA 50 trend vote, if any |
| Trading.CastLongTrendVote | src/strategy/trading_strategy.py:145-149 | appends exactly `LongTrendVotes`: the MA 200 vote, if any |
| Trading.CastBandVote | src/strategy/trading_strategy.py:151-162 | appends exactly `BandVotes`: the Bollinger vote, if any |
| Trading.CastVolumeVote | src/strategy/trading_strategy.py:164-172 | appends exactly `VolumeVotes`: the volume vote, if any |
| Trading.Multiplier | src/strategy/trading_strategy.py:299-300 | the confidence multiplier lies in [0.5, 2.0] |
| Trading.PositionSize | src/strategy/trading_strategy.py:280-310 | fails (division by zero) exactly when the volatility is truthy and equal to -1 |
| Trading.Damped | src/strategy/trading_strategy.py:304-308 | the same failure condition for the volatility step alone |
| Trading.DampedMonotone | src/strategy/trading_strategy.py:304-308 | damping by a volatility above -1 succeeds and keeps the order of two sizes |
| Trading.PositionSizeBounds | src/strategy/trading_strategy.py:294-302 | without a truthy volatility, the size is between 0.5 and 2 times the capital at risk |
| Trading.PositionSizeMonotone | src/strategy/trading_strategy.py:297-310 | with a non-negative capital at risk and any volatility above -1, more confidence never gives a smaller position |
| Trading.VolatilityScales | src/strategy/trading_strategy.py:305-308 | a truthy volatility other than -1 divides the undamped size by `1 + volatility` |
| Backtesting.PeriodFor | src/strategy/backtesting_engine.py:272-297 | one of the seven period strings, each holding exactly on its band of days |
| Backtesting.PeriodMonotone | src/strategy/backtesting_engine.py:282-297 | a longer range never gets a shorter period |
| Backtesting.Where | src/strategy/backtesting_engine.py:61-62 | a boolean mask keeps exactly the rows that pass, never more rows |
| Backtesting.WhereAppend | src/strategy/backtesting_engine.py:116 | masking a concatenation masks each part |
| Backtesting.WhereNone | src/strategy/backtesting_engine.py:116 | a mask that no row passes gives nothing |
| Backtesting.InRange | src/strategy/backtesting_engine.py:59-62 | keeps exactly the bars dated within the range, with positive closes kept positive |
| Backtesting.SortByDate | src/strategy/backtesting_engine.py:70 | sorted by date, and a permutation of the bars |
| Backtesting.RunBars | src/strategy/backtesting_engine.py:59-70 | the run's bars are sorted and are exactly the fetched bars within the range |
| Backtesting.AsOfLatest | src/strategy/backtesting_engine.py:97-100 | the row found is the last one dated on or before the day; none is found exactly when every row is later |
| Backtesting.AsOfIgnoresLaterRows | src/strategy/backtesting_engine.py:98 | rows dated after the day change nothing about it |
| Backtesting.AsOf | src/strategy/backtesting_engine.py:97-100 | a row found is one of the history's rows, dated on or before the day |
| Backtesting.SentimentOn | src/strategy/backtesting_engine.py:96-112 | always labelled neutral; the fixed 0.0 / 0.3 / 0 dictionary when nothing is known yet; otherwise the latest row's score, confidence and mention count, defaulting to 0.0, 0.5 and 0 |
| Backtesting.MarketOn | src/strategy/backtesting_engine.py:114-126 | no indicators before 20 bars, otherwise the indicators of the bars seen so far |
| Backtesting.MarketIgnoresLaterBars | src/strategy/backtesting_engine.py:116 | a day's indicators see no later bar |
| Backtesting.StrategyFeed | src/strategy/backtesting_engine.py:129 | the day's decision is the strategy's `generate_signal` for the ticker |
| Backtesting.Signals | src/strategy/backtesting_engine.py:96-129 | one signal per day, day k's decided on the sentiment as of day k and the market up to day k |
| Backtesting.SharesToBuy | src/strategy/backtesting_engine.py:134-139 | the order is the largest whole number of shares whose price fits in the position size, never negative |
| Backtesting.Execute | src/strategy/backtesting_engine.py:131-169 | a buy happens exactly on a buy signal with cash whose whole-share order `SharesToBuy` is positive and covered with the fee, for that order; a sell signal with shares always sells every share at the fee-reduced price; otherwise nothing changes |
| Backtesting.ExecuteKeepsSound | src/strategy/backtesting_engine.py:131-169 | with a fee below 100%, no trade makes cash or shares negative or leaves the account empty |
| Backtesting.SoundIsPositive | src/strategy/backtesting_engine.py:172 | a sound ledger is worth more than nothing at a positive price |
| Backtesting.Valuation | src/strategy/backtesting_engine.py:171-179 | the day's line records the date, the cash, the shares and the close |
| Backtesting.Replay | src/strategy/backtesting_engine.py:92-179 | one equity line per day and at most one trade per day |
| Backtesting.ReplayStep | src/strategy/backtesting_engine.py:92-179 | each day trades on its own signal and appends one equity line |
| Backtesting.ReplayIsSound | src/strategy/backtesting_engine.py:132-179 | from positive capital the ledger stays sound and every equity line is `cash + shares * close` of its own bar, positive |
| Backtesting.ValuedExtend | src/strategy/backtesting_engine.py:173-179 | appending a line that follows its bar keeps every line following its bar |
| Backtesting.SoundLineValued | src/strategy/backtesting_engine.py:172 | a sound ledger's line follows its bar |
| Backtesting.ReplayIsChronological | src/strategy/backtesting_engine.py:147-169 | over sorted bars the trade log is in date order, every trade dated on one of the days run |
| Backtesting.SimulateDays | src/strategy/backtesting_engine.py:92-179 | the imperative day loop builds `Replay` of all the bars |
| Backtesting.DaySignal | src/strategy/backtesting_engine.py:96-129 | the day's sentiment, indicators and signal are that day's entry of `Signals` |
| Backtesting.ExecuteSignal | src/strategy/backtesting_engine.py:131-169 | the imperative trade block computes `Execute` |
| Backtesting.Equity | src/strategy/backtesting_engine.py:182-184 | the value column, entry by entry |
| Backtesting.TotalReturn | src/strategy/backtesting_engine.py:195 | positive exactly when the capital grew, zero exactly when it stayed, and above -100% for a positive final value |
| Backtesting.DailyReturns | src/strategy/backtesting_engine.py:183-187 | the percentage changes for two days or more, `[0.0]` for one |
| Backtesting.DailyReturnsFrom | src/strategy/backtesting_engine.py:184-185 | one return per day after the first |
| Backtesting.ReturnsCompound | src/strategy/backtesting_engine.py:184 | each return exceeds -100% and carries one day's value to the next |
| Backtesting.ReturnAt | src/strategy/backtesting_engine.py:184 | the same for one day |
| Backtesting.ReturnStep | src/strategy/backtesting_engine.py:184 | `a / b - 1` exceeds -1 and carries `b` to `a` |
| Backtesting.Growth | src/strategy/backtesting_engine.py:205 | one level per return |
| Backtesting.LevelPositive | src/strategy/backtesting_engine.py:205 | returns above -100% keep every cumulative level positive |
| Backtesting.GrowthPositive | src/strategy/backtesting_engine.py:205 | every cumulative level is positive |
| Backtesting.GrowthTelescopes | src/strategy/backtesting_engine.py:205 | the level after day k is the value of day k + 1 over the first day's value |
| Backtesting.LevelScales | src/strategy/backtesting_engine.py:205 | the product of the steps scales the first value to the later one |
| Backtesting.Peak | src/strategy/backtesting_engine.py:206 | `cummax`: at least every level so far, and equal to one of them |
| Backtesting.Minimum | src/strategy/backtesting_engine.py:208 | `min`: at most every entry, and equal to one of them |
| Backtesting.Drawdowns | src/strategy/backtesting_engine.py:207 | every drawdown lies in (-1, 0] |
| Backtesting.DrawdownAt | src/strategy/backtesting_engine.py:207 | one day's fall from the peak so far lies in (-1, 0] |
| Backtesting.MaxDrawdown | src/strategy/backtesting_engine.py:204-208 | the corrected maximum drawdown lies in (-100%, 0] |
| Backtesting.MaxDrawdownAsWritten | src/strategy/backtesting_engine.py:204-208 | as written, the drawdown also lies in (-100%, 0] |
| Backtesting.MaxDrawdownLevels | src/strategy/backtesting_engine.py:205-207 | the corrected curve's level on day k is day k's value over the first day's value |
| Backtesting.DrawdownMissesFirstPeak | src/strategy/backtesting_engine.py:204-208 | on the curve 100, 50, 60 the drawdown as written is 0%, the corrected one -50% |
| Backtesting.HalvingCurveGrowth | src/strategy/backtesting_engine.py:205 | the cumulative levels of 100, 50, 60 are 0.5 and 0.6 |
| Backtesting.HalvingCurveAsWritten | src/strategy/backtesting_engine.py:206-208 | without the starting level, those levels show no drawdown |
| Backtesting.HalvingCurveCorrected | src/strategy/backtesting_engine.py:206-208 | with the starting level 1.0, they show a -50% drawdown |
| Backtesting.Assign | src/strategy/backtesting_engine.py:221 | a dictionary assignment: never empty, at most one entry longer |
| Backtesting.AssignLatest | src/strategy/backtesting_engine.py:221-226 | assigning a date no earlier than every key keeps the keys increasing and makes that price the last value |
| Backtesting.AssignKeys | src/strategy/backtesting_engine.py:221 | the keys after an assignment are the old keys and the assigned date |
| Backtesting.PrependIncreasing | src/strategy/backtesting_engine.py:221 | a key below every other key can go first |
| Backtesting.TallyOf | src/strategy/backtesting_engine.py:213-229 | the profitable sells never exceed the sells, which never exceed the trades |
| Backtesting.WinRateOf | src/strategy/backtesting_engine.py:212-232 | in [0, 100], and 0 with fewer than two trades or with no sells |
| Backtesting.TallyTracksLastBuy | src/strategy/backtesting_engine.py:217-226 | over a log in date order, the dictionary's last value is the price of the most recent buy |
| Backtesting.BuyTracksLastBuy | src/strategy/backtesting_engine.py:220-221 | a buy keeps that property |
| Backtesting.TallyCountsProfitableSells | src/strategy/backtesting_engine.py:219-228 | the loop counts every sell, and exactly the sells above the most recent buy before them |
| Backtesting.TallyCountsSells | src/strategy/backtesting_engine.py:213-228 | in any order of trades, the loop's sell tally is the number of sells |
| Backtesting.WinRateCountsProfitableSells | src/strategy/backtesting_engine.py:212-232 | the win rate is the share of sells above the most recent buy, in percent |
| Backtesting.WinRate | src/strategy/backtesting_engine.py:212-232 | the imperative win-rate loop computes `WinRateOf` |
| Backtesting.BenchmarkReturn | src/strategy/backtesting_engine.py:235-247 | 0 unless at least two S&P 500 bars lie in the range, otherwise the return from the first to the last |
| Backtesting.Points | src/strategy/backtesting_engine.py:264-265 | one reported point per equity line |
| Backtesting.Fills | src/strategy/backtesting_engine.py:266-268 | one reported fill per trade |
| Backtesting.PositiveAfterMask | src/strategy/backtesting_engine.py:61-62 | masking keeps the closes positive |
| Backtesting.PositiveAfterSort | src/strategy/backtesting_engine.py:70 | sorting keeps the closes positive |
| Backtesting.BacktestNoData | src/strategy/backtesting_engine.py:49-68 | a run gives the no-data record exactly when no fetched bar lies in the range, with the first message for an empty fetch and the second otherwise |
| Backtesting.BacktestRaises | src/strategy/backtesting_engine.py:183-205 | a run raises exactly when the range holds one bar, on the missing `daily_return` column |
| Backtesting.SummaryCovers | src/strategy/backtesting_engine.py:181-270 | one day raises; two or more give a report that covers them (see `BacktestReport`) |
| Backtesting.BacktestIsSummary | src/strategy/backtesting_engine.py:59-179 | a run over at least one bar is the summary of the replay of its sorted bars, each valued positively |
| Backtesting.BacktestReport | src/strategy/backtesting_engine.py:32-270 | a run finishes exactly when the range holds two bars or more. The report then has the inputs, one point per bar, one return per bar after the first, at most one trade per bar, a positive final value equal to the last point, a return above -100% that is positive exactly when the capital grew, a drawdown in (-100%, 0], a win rate in [0, 100], and the excess over the S&P 500 |
| Backtesting.Backtest | src/strategy/backtesting_engine.py:32-270 | an error record names the ticker, an exception is the missing `daily_return` column, and a report names the ticker with its win rate in [0, 100] and its drawdown in (-100%, 0] |
| Backtesting.Summarize | src/strategy/backtesting_engine.py:181-270 | a single day raises; a report's win rate is the trade log's, in [0, 100] |
| Backtesting.SummarizeWith | src/strategy/backtesting_engine.py:181-270 | never an error record; a single day raises the missing `daily_return` column; a report has the given win rate, the ticker, the trade count, the last day's value as final value, the return against the S&P 500 as the difference of the two returns, and a drawdown in (-100%, 0] |
| Backtesting.RunBacktest | src/strategy/backtesting_engine.py:32-270 | the imperative run computes `Backtest` |
| Backtesting.ReportMetrics | src/strategy/backtesting_engine.py:181-270 | the imperative metrics block computes `Summarize` |

## Left out

- The wall clock (`time.time()`, `datetime.now()`) is an argument.
  - Each analysis uses one instant for its check, wait and recording, so the recorded instant is the instant of the check.
  - A batch takes its instants from a table indexed by position.
- `time.sleep` in `wait_if_needed` and the `delay` between batch texts are not modelled; `WaitIfNeeded` returns the sleep it would take.
- The language-model call is the argument `call`, either its answer or the exception it raised. The prompt text is not modelled because nothing reads it back.
- `json.loads` and the `float()` conversions of the fields are an oracle, `json`. A number `float` refuses shows up only as the oracle's failure.
- The md5 digest of the cache string is modelled by the string itself. Two keys collide exactly when their strings are equal, so hash collisions are not modelled.
- File I/O is modelled as arguments and results:
  - `_load_state` and `_load_costs` take the saved content as an argument, absent when there is no file or it cannot be read;
  - `_save_state` and `_save_costs` are what `Saved` and `SavedCosts` return.
- `print` calls are not modelled.
- The four-place rounding in both `get_stats` methods and in `get_usage_stats` is not modelled.
- `Lower` folds only ASCII letters; Python's full Unicode case folding is not modelled.
- The Sharpe ratio (`np.std`, `np.sqrt`) is not modelled: it needs square roots of reals.
- Floating point is modelled as exact real arithmetic. NaN and infinities are not modelled.
- `sort_values` (an unstable quicksort) is modelled as a stable insertion sort. Bars with the same date may come out in a different order.
- Dates are day numbers. The time of day in `start_date`/`end_date` is not modelled, and neither is the ISO-string comparison of dictionary keys; the two agree for day-aligned dates.
- `_calculate_indicators_for_date` (the `ta` library) is the argument `indicate`, with `None` for the empty dictionary returned on an error.
- `MarketDataFetcher`, `DatabaseManager` and `sentiment_data_fn` are modelled as arguments: the fetchers as `fetch` and `fetchBenchmark`, and the sentiment history as the rows of the `Feed`.
- The engine calls `generate_signal` through the `decide` function of the `Feed`; `StrategyFeed` builds the one the source uses.
- A `defaultdict` read also inserts the missing key with value 0. The model does not add that entry. All counts and totals are the same either way; only the saved file could differ.
- `RateLimiting.CostTracker.AddCost`, `SentimentAnalysis.Admitted`, `SentimentAnalysis.Analyze`, `SentimentAnalysis.AnsweredCallIsBooked`, `SentimentAnalysis.SentimentAnalyzer.AnalyzeSentiment`: use today's cost entry with a default of 0.0, the correction of the `add_cost` finding. As written, a tracker loaded from its file raises `KeyError` on a new day; `AdmittedAsWritten` models that path.
- `SentimentAnalysis.AdmittedAsWritten`: the message of the `KeyError` is the constant "KeyError"; in the source it is the quoted ISO date.
- `Backtesting.Backtest`, `Backtesting.RunBacktest`: require a positive initial capital, a transaction cost below 100% and positive closes. Otherwise pandas produces infinities or NaN, which are not modelled.
- `Backtesting.Execute`, `Backtesting.SharesToBuy`, `Backtesting.ExecuteSignal`: require a positive close, for the same reason.
- `Backtesting.Summarize`, `Backtesting.ReportMetrics`: require a positive capital, positive equity values and positive benchmark closes. `Backtest` establishes all three.
- `Backtesting.MaxDrawdown`: the report uses the corrected drawdown (see Findings), not the one as written.
- `SentimentAnalysis.BatchLength`, `SentimentAnalysis.BatchInOrder`, `SentimentAnalysis.BatchFromInOrder`: are stated for a positive batch size (and `BatchLength` for a non-negative `max_texts_per_request`). A zero size raises and a negative one gives no records; `Batch` and `BatchAnalyze` model both cases.
- `SentimentAnalysis.SentimentAnalyzer.RunBatches`, `RunBatch`, `RunAdmitted`: require a positive batch size, which `BatchAnalyze` checks before calling them.

## Findings

| source | as written | input that shows it | evidently intended | confidence | as-written member | corrected member |
|---|---|---|---|---|---|---|
| src/sentiment/rate_limiter.py:47-98 | `_load_state` and `_reset_if_new_day` replace the `defaultdict` by a plain `dict`, so `self.daily_requests[today]` raises `KeyError` on the first check of a day without an entry | limits 60/1000/$10; counters last reset on day 0 with entries for day 0 only, checked on day 1 | a missing day counts as 0 requests and $0.0, as the `defaultdict` gives | not executed | RateLimiting.VerdictAsWritten, RateLimiting.NewDayCheckRaises | RateLimiting.Verdict |
| src/strategy/backtesting_engine.py:204-208 | the cumulative product starts from the first daily return, so the first day's value is never a peak and a fall from it is not seen | equity values 100, 50, 60: drawdown 0% | the drawdown measured from the starting value too: -50% | not executed | Backtesting.MaxDrawdownAsWritten, Backtesting.DrawdownMissesFirstPeak | Backtesting.MaxDrawdown |
| src/sentiment/rate_limiter.py:176-207 | `_load_costs` replaces the `defaultdict` by a plain `dict`, so `self.daily_costs[today] += amount` raises `KeyError` on a new day; in `analyze_sentiment` this happens after `record_request`, and the handler returns an "Error: ..." record | a cost file with an entry for day 0 only; on day 1 a first call answers with a reply that decodes | the reply is returned and cached, and its cost is booked under day 1 | not executed | SentimentAnalysis.AdmittedAsWritten, SentimentAnalysis.LoadedTrackerLosesReply | SentimentAnalysis.Admitted |
