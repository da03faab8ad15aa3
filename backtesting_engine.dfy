/**
 * The backtesting engine: it replays a strategy day by day over a ticker's daily
 * closes, joins each day with the latest sentiment known on that day, keeps a
 * cash/shares ledger with a proportional transaction cost, and scores the run
 * (total return, maximum drawdown, win rate, return against the S&P 500).
 *
 * Dates are day numbers, so `(end - start).days` is `end - start`. The market data
 * fetcher and the indicator computation are parameters: `fetch(period)` is the
 * frame of daily bars the fetcher returns for a period string, and
 * `indicate(bars, price)` is the indicator dictionary computed from the bars seen
 * so far (`None` for the empty dictionary returned on an error).
 */
module Backtesting {
  import opened Wrappers
  import opened Numbers
  import opened Trading

  type Date = int

  /** One row of a daily price frame: its date and its closing price. */
  datatype Bar = Bar(date: Date, close: real)

  /** One row of the sentiment history; a missing column reads as `None`. */
  datatype SentimentRow = SentimentRow(date: Date, avgScore: Option<real>, avgConfidence: Option<real>,
                                       mentionCount: Option<int>)

  /** The engine's configuration, fixed at construction. */
  datatype Engine = Engine(initialCapital: real, transactionCost: real)

  /** The default engine: a capital of 100000 and a transaction cost of 0.1%. */
  const DefaultEngine: Engine := Engine(100000.0, 0.001)

  // Period

  /** The period strings the fetcher understands, from the shortest to the longest. */
  const Periods: seq<string> := ["5d", "1mo", "3mo", "6mo", "1y", "2y", "max"]

  /** `_calculate_period`: the shortest period covering `days` days. */
  function PeriodFor(days: int): (p: string)
    ensures p in Periods
    ensures p == "5d" <==> days <= 5
    ensures p == "1mo" <==> 5 < days <= 30
    ensures p == "3mo" <==> 30 < days <= 90
    ensures p == "6mo" <==> 90 < days <= 180
    ensures p == "1y" <==> 180 < days <= 365
    ensures p == "2y" <==> 365 < days <= 730
    ensures p == "max" <==> 730 < days
  {
    if days <= 5 then "5d"
    else if days <= 30 then "1mo"
    else if days <= 90 then "3mo"
    else if days <= 180 then "6mo"
    else if days <= 365 then "1y"
    else if days <= 730 then "2y"
    else "max"
  }

  /** The position of a period string in `Periods`. */
  function Rank(p: string): nat {
    if p == "5d" then 0 else if p == "1mo" then 1 else if p == "3mo" then 2 else if p == "6mo" then 3
    else if p == "1y" then 4 else if p == "2y" then 5 else 6
  }

  /** A longer date range never asks for a shorter period. */
  lemma PeriodMonotone(d1: int, d2: int)
    requires d1 <= d2
    ensures Rank(PeriodFor(d1)) <= Rank(PeriodFor(d2))
  {
  }

  // Frames

  /** The rows of `xs` that `keep` accepts, in their order: a boolean mask on a frame. */
  function Where<T(!new)>(xs: seq<T>, keep: T -> bool): (r: seq<T>)
    ensures |r| <= |xs|
    ensures forall x :: x in r <==> x in xs && keep(x)
  {
    if xs == [] then []
    else
      var init, last := xs[..|xs| - 1], xs[|xs| - 1];
      assert xs == init + [last];
      var kept := Where(init, keep);
      if keep(last) then kept + [last] else kept
  }

  /** A mask on a concatenation is the concatenation of the masks. */
  lemma {:induction false} WhereAppend<T(!new)>(xs: seq<T>, ys: seq<T>, keep: T -> bool)
    ensures Where(xs + ys, keep) == Where(xs, keep) + Where(ys, keep)
  {
    if ys == [] {
      assert xs + ys == xs;
    } else {
      var init, last := ys[..|ys| - 1], ys[|ys| - 1];
      assert (xs + ys)[..|xs + ys| - 1] == xs + init;
      assert (xs + ys)[|xs + ys| - 1] == last;
      WhereAppend(xs, init, keep);
      if keep(last) {
        assert Where(xs, keep) + Where(init, keep) + [last] == Where(xs, keep) + (Where(init, keep) + [last]);
      }
    }
  }

  /** A mask that accepts no row of `ys` leaves nothing of it. */
  lemma {:induction false} WhereNone<T(!new)>(ys: seq<T>, keep: T -> bool)
    requires forall i :: 0 <= i < |ys| ==> !keep(ys[i])
    ensures Where(ys, keep) == []
  {
    if ys != [] {
      var init := ys[..|ys| - 1];
      assert forall i :: 0 <= i < |init| ==> init[i] == ys[i];
      WhereNone(init, keep);
    }
  }

  /** The bars dated within [start, end]. */
  function InRange(bars: seq<Bar>, start: Date, end: Date): (r: seq<Bar>)
    ensures forall b :: b in r <==> b in bars && start <= b.date <= end
    ensures PositivePrices(bars) ==> PositivePrices(r)
  {
    Where(bars, (b: Bar) => start <= b.date <= end)
  }

  /** The bars dated on or before `day`. */
  function UpTo(bars: seq<Bar>, day: Date): seq<Bar> {
    Where(bars, (b: Bar) => b.date <= day)
  }

  predicate SortedByDate(bars: seq<Bar>) {
    forall i, j :: 0 <= i < j < |bars| ==> bars[i].date <= bars[j].date
  }

  /** Inserts `b` after every bar dated no later than it. */
  function InsertByDate(b: Bar, sorted: seq<Bar>): (r: seq<Bar>)
    requires SortedByDate(sorted)
    ensures SortedByDate(r)
    ensures multiset(r) == multiset(sorted) + multiset{b}
    ensures r[0] == b || (sorted != [] && r[0] == sorted[0])
  {
    if sorted == [] then [b]
    else if b.date < sorted[0].date then
      PrependSorted(b, sorted);
      [b] + sorted
    else
      var rest := InsertByDate(b, sorted[1..]);
      assert multiset(sorted) == multiset{sorted[0]} + multiset(sorted[1..]) by {
        assert sorted == [sorted[0]] + sorted[1..];
      }
      PrependSorted(sorted[0], rest);
      [sorted[0]] + rest
  }

  /** A bar dated no later than the first of a date-ordered sequence can go in front of it. */
  lemma PrependSorted(x: Bar, rest: seq<Bar>)
    requires SortedByDate(rest) && (rest == [] || x.date <= rest[0].date)
    ensures SortedByDate([x] + rest)
  {
    var r := [x] + rest;
    forall i, j | 0 <= i < j < |r|
      ensures r[i].date <= r[j].date
    {
      if i == 0 {
        assert r[j] == rest[j - 1];
      } else {
        assert r[i] == rest[i - 1] && r[j] == rest[j - 1];
      }
    }
  }

  /** `sort_values('date')`: the bars ordered by date, bars of the same date kept in their order. */
  function SortByDate(bars: seq<Bar>): (r: seq<Bar>)
    ensures SortedByDate(r)
    ensures multiset(r) == multiset(bars)
  {
    if bars == [] then []
    else
      var init, last := bars[..|bars| - 1], bars[|bars| - 1];
      assert bars == init + [last];
      InsertByDate(last, SortByDate(init))
  }

  // Sentiment as of a day

  /** `sentiment_df[sentiment_df['date'] <= day].iloc[-1]`, if any row is that old. */
  function AsOf(rows: seq<SentimentRow>, day: Date): (r: Option<SentimentRow>)
    ensures r.Some? ==> r.value in rows && r.value.date <= day
  {
    if rows == [] then None
    else if rows[|rows| - 1].date <= day then Some(rows[|rows| - 1])
    else AsOf(rows[..|rows| - 1], day)
  }

  /**
   * The row found is the last one, in the order of the history, dated on or before
   * `day`; nothing is found exactly when every row is dated after `day`.
   */
  lemma {:induction false} AsOfLatest(rows: seq<SentimentRow>, day: Date)
    ensures AsOf(rows, day).None? <==> forall i :: 0 <= i < |rows| ==> rows[i].date > day
    ensures AsOf(rows, day).Some? ==>
      (exists i :: 0 <= i < |rows| && rows[i] == AsOf(rows, day).value && rows[i].date <= day
         && forall j :: i < j < |rows| ==> rows[j].date > day)
  {
    if rows != [] && rows[|rows| - 1].date > day {
      var init := rows[..|rows| - 1];
      AsOfLatest(init, day);
      assert forall i :: 0 <= i < |init| ==> init[i] == rows[i];
      if AsOf(init, day).Some? {
        var i :| 0 <= i < |init| && init[i] == AsOf(init, day).value && init[i].date <= day
                 && forall j :: i < j < |init| ==> init[j].date > day;
        assert rows[i] == AsOf(rows, day).value;
      }
    } else if rows != [] {
      assert rows[|rows| - 1] == AsOf(rows, day).value;
    }
  }

  /** Rows dated after `day`, wherever they come, do not change what is known on `day`. */
  lemma {:induction false} AsOfIgnoresLaterRows(rows: seq<SentimentRow>, later: seq<SentimentRow>, day: Date)
    requires forall i :: 0 <= i < |later| ==> later[i].date > day
    ensures AsOf(rows + later, day) == AsOf(rows, day)
  {
    if later != [] {
      var init := later[..|later| - 1];
      assert (rows + later)[..|rows + later| - 1] == rows + init;
      AsOfIgnoresLaterRows(rows, init, day);
    } else {
      assert rows + later == rows;
    }
  }

  /** The sentiment dictionary for a day when nothing is known yet. */
  const NoSentiment: SentimentInput := SentimentInput(Some(0.0), Some(0.3), Some(0), Some("neutral"))

  /**
   * The sentiment dictionary for `day`: the latest known row's score (default 0.0),
   * confidence (default 0.5) and mention count (default 0), always labelled neutral.
   */
  function SentimentOn(rows: seq<SentimentRow>, day: Date): (s: SentimentInput)
    ensures s.overallSentiment == Some("neutral")
    ensures AsOf(rows, day).None? ==> s == NoSentiment
    ensures AsOf(rows, day).Some? ==>
      var row := AsOf(rows, day).value;
      && s.weightedScore == Some(row.avgScore.GetOr(0.0))
      && s.confidence == Some(row.avgConfidence.GetOr(0.5))
      && s.totalCount == Some(row.mentionCount.GetOr(0))
  {
    match AsOf(rows, day)
    case None => NoSentiment
    case Some(r) =>
      SentimentInput(Some(r.avgScore.GetOr(0.0)), Some(r.avgConfidence.GetOr(0.5)), Some(r.mentionCount.GetOr(0)),
                     Some("neutral"))
  }

  // Market data for a day

  /** The number of bars the indicators need. */
  const IndicatorWindow: nat := 20

  /**
   * The market dictionary for the day of `bar`: indicators from the bars dated up to
   * that day when there are at least 20 of them, otherwise none.
   */
  function MarketOn(indicate: (seq<Bar>, real) -> Option<Indicators>, bars: seq<Bar>, bar: Bar): (m: MarketData)
    ensures |UpTo(bars, bar.date)| < IndicatorWindow ==> m.indicators.None?
    ensures |UpTo(bars, bar.date)| >= IndicatorWindow ==> m.indicators == indicate(UpTo(bars, bar.date), bar.close)
  {
    var seen := UpTo(bars, bar.date);
    if |seen| >= IndicatorWindow then MarketData(indicate(seen, bar.close)) else MarketData(None)
  }

  /** The indicators of a day see only the bars up to that day: later bars change nothing. */
  lemma MarketIgnoresLaterBars(indicate: (seq<Bar>, real) -> Option<Indicators>, bars: seq<Bar>,
                               later: seq<Bar>, bar: Bar)
    requires forall i :: 0 <= i < |later| ==> later[i].date > bar.date
    ensures MarketOn(indicate, bars + later, bar) == MarketOn(indicate, bars, bar)
  {
    var keep := (b: Bar) => b.date <= bar.date;
    WhereAppend(bars, later, keep);
    WhereNone(later, keep);
    assert UpTo(bars + later, bar.date) == UpTo(bars, bar.date);
  }

  /**
   * What the engine is run with: the ticker, the sentiment history, the indicator
   * computation and the strategy's `generate_signal` for the ticker, as a function
   * of the day's sentiment and market data.
   */
  datatype Feed = Feed(ticker: string, rows: seq<SentimentRow>,
                       indicate: (seq<Bar>, real) -> Option<Indicators>,
                       decide: (SentimentInput, MarketData) -> Signal)

  /** The feed of a `TradingStrategy` run on one ticker. */
  function StrategyFeed(strategy: Strategy, ticker: string, rows: seq<SentimentRow>,
                        indicate: (seq<Bar>, real) -> Option<Indicators>): (f: Feed)
    ensures f.ticker == ticker && f.rows == rows && f.indicate == indicate
    ensures forall s, m :: f.decide(s, m) == GenerateSignal(strategy, ticker, s, m)
  {
    Feed(ticker, rows, indicate, (s, m) => GenerateSignal(strategy, ticker, s, m))
  }

  /** The signal on day `k` of the sorted bars. */
  function SignalOn(feed: Feed, bars: seq<Bar>, k: nat): Signal
    requires k < |bars|
  {
    feed.decide(SentimentOn(feed.rows, bars[k].date), MarketOn(feed.indicate, bars, bars[k]))
  }

  /** The signal of every day. */
  function Signals(feed: Feed, bars: seq<Bar>): (r: seq<Signal>)
    ensures |r| == |bars|
    ensures forall k :: 0 <= k < |bars| ==> r[k] == SignalOn(feed, bars, k)
  {
    seq(|bars|, k requires 0 <= k < |bars| => SignalOn(feed, bars, k))
  }

  // Ledger

  datatype Side = Bought | Sold

  /** One executed trade; `amount` is the cost of a purchase or the revenue of a sale. */
  datatype Trade = Trade(date: Date, side: Side, shares: int, price: real, amount: real)

  datatype Ledger = Ledger(cash: real, shares: int)

  /** The ledger after a day, with the trade executed that day, if any. */
  datatype Step = Step(ledger: Ledger, trade: Option<Trade>)

  /** Cash and shares are never negative, and the account never holds nothing. */
  predicate Sound(l: Ledger) {
    l.cash >= 0.0 && l.shares >= 0 && (l.cash > 0.0 || l.shares > 0)
  }

  /** The whole-share order a buy signal places: the position size over the price, truncated. */
  function SharesToBuy(cash: real, confidence: real, price: real): (n: int)
    requires cash > 0.0 && price > 0.0
    ensures n >= 0
    ensures PositionSize(cash, confidence, None, DefaultRisk).Success?
    ensures var size := PositionSize(cash, confidence, None, DefaultRisk).value;
      n as real * price <= size < (n + 1) as real * price
  {
    var size := PositionSize(cash, confidence, None, DefaultRisk).value;
    PositionSizeBounds(cash, confidence, None, DefaultRisk);
    assert size / price >= 0.0;
    var n := Trunc(size / price);
    WholeQuotient(size, price, n);
    n
  }

  /** The cash a trade of `shares` at `price` moves, scaled by `rate` (1 plus or minus the fee). */
  function Amount(shares: int, price: real, rate: real): real {
    shares as real * price * rate
  }

  /**
   * One day's trade: a buy signal with cash spends on whole shares when the cost,
   * fees included, is covered; a sell signal with shares sells them all; otherwise
   * the ledger stays as it is.
   */
  function Execute(l: Ledger, kind: SignalKind, confidence: real, bar: Bar, tc: real): (r: Step)
    requires bar.close > 0.0
    ensures r.trade.None? ==> r.ledger == l
    ensures kind == Hold ==> r == Step(l, None)
    ensures r.trade.Some? && r.trade.value.side == Bought ==>
      var t := r.trade.value;
      && kind == Buy && l.cash > 0.0 && t.shares > 0 && t.amount <= l.cash
      && t.amount == Amount(t.shares, bar.close, 1.0 + tc)
      && r.ledger == Ledger(l.cash - t.amount, l.shares + t.shares)
    ensures r.trade.Some? && r.trade.value.side == Sold ==>
      var t := r.trade.value;
      && kind == Sell && l.shares > 0 && t.shares == l.shares
      && t.amount == Amount(l.shares, bar.close, 1.0 - tc)
      && r.ledger == Ledger(l.cash + t.amount, 0)
    ensures r.trade.Some? ==> r.trade.value.date == bar.date && r.trade.value.price == bar.close
    ensures r.trade.Some? && r.trade.value.side == Bought ==>
      l.cash > 0.0 && r.trade.value.shares == SharesToBuy(l.cash, confidence, bar.close)
    ensures kind == Buy && l.cash > 0.0 ==>
      var n := SharesToBuy(l.cash, confidence, bar.close);
      n > 0 && Amount(n, bar.close, 1.0 + tc) <= l.cash ==> r.trade.Some?
    ensures kind == Sell && l.shares > 0 ==> r.trade.Some? && r.trade.value.side == Sold
  {
    if kind == Buy && l.cash > 0.0 then
      var n := SharesToBuy(l.cash, confidence, bar.close);
      if n > 0 then
        var cost := Amount(n, bar.close, 1.0 + tc);
        if cost <= l.cash then Step(Ledger(l.cash - cost, l.shares + n), Some(Trade(bar.date, Bought, n, bar.close, cost)))
        else Step(l, None)
      else Step(l, None)
    else if kind == Sell && l.shares > 0 then
      var revenue := Amount(l.shares, bar.close, 1.0 - tc);
      Step(Ledger(l.cash + revenue, 0), Some(Trade(bar.date, Sold, l.shares, bar.close, revenue)))
    else Step(l, None)
  }

  /** With a transaction cost below 100%, no trade takes the ledger out of soundness: no debt, no short sale. */
  lemma ExecuteKeepsSound(l: Ledger, kind: SignalKind, confidence: real, bar: Bar, tc: real)
    requires Sound(l) && bar.close > 0.0 && tc < 1.0
    ensures Sound(Execute(l, kind, confidence, bar, tc).ledger)
  {
    var r := Execute(l, kind, confidence, bar, tc);
    if r.trade.Some? && r.trade.value.side == Sold {
      PositiveProduct(l.shares as real, bar.close);
      PositiveProduct(l.shares as real * bar.close, 1.0 - tc);
    }
  }

  /** A sound ledger is worth more than nothing at a positive price. */
  lemma SoundIsPositive(l: Ledger, price: real)
    requires Sound(l) && price > 0.0
    ensures l.cash + l.shares as real * price > 0.0
  {
    if l.shares > 0 {
      PositiveProduct(l.shares as real, price);
    }
  }

  // Day loop

  /** One line of the equity curve. */
  datatype DayValue = DayValue(date: Date, value: real, cash: real, shares: int, price: real)

  /** The ledger, the trade log and the equity curve after some days. */
  datatype Book = Book(ledger: Ledger, trades: seq<Trade>, values: seq<DayValue>)

  /** The equity line for a day: cash plus the shares at the day's close. */
  function Valuation(l: Ledger, bar: Bar): (v: DayValue)
    ensures v.date == bar.date && v.cash == l.cash && v.shares == l.shares && v.price == bar.close
  {
    DayValue(bar.date, l.cash + l.shares as real * bar.close, l.cash, l.shares, bar.close)
  }

  predicate PositivePrices(bars: seq<Bar>) {
    forall i :: 0 <= i < |bars| ==> bars[i].close > 0.0
  }

  /** The book after the first `k` days, each day trading on its signal and then valuing the ledger. */
  function Replay(bars: seq<Bar>, signals: seq<Signal>, tc: real, initial: real, k: nat): (b: Book)
    requires k <= |bars| && |signals| == |bars| && PositivePrices(bars)
    ensures |b.values| == k && |b.trades| <= k
  {
    if k == 0 then Book(Ledger(initial, 0), [], [])
    else
      var before := Replay(bars, signals, tc, initial, k - 1);
      var bar, signal := bars[k - 1], signals[k - 1];
      var step := Execute(before.ledger, signal.signalType, signal.confidence, bar, tc);
      Book(step.ledger, before.trades + (if step.trade.Some? then [step.trade.value] else []),
           before.values + [Valuation(step.ledger, bar)])
  }

  /** Day `k` trades on its own signal and appends one equity line. */
  lemma ReplayStep(bars: seq<Bar>, signals: seq<Signal>, tc: real, initial: real, k: nat)
    requires k < |bars| && |signals| == |bars| && PositivePrices(bars)
    ensures var before := Replay(bars, signals, tc, initial, k);
      var step := Execute(before.ledger, signals[k].signalType, signals[k].confidence, bars[k], tc);
      Replay(bars, signals, tc, initial, k + 1)
        == Book(step.ledger, before.trades + (if step.trade.Some? then [step.trade.value] else []),
                before.values + [Valuation(step.ledger, bars[k])])
  {
  }

  /**
   * An equity line that follows its bar: valued on the bar's date and close, at
   * `cash + shares * close` of a sound ledger, so at a positive value.
   */
  predicate ValuedOn(v: DayValue, bar: Bar) {
    && v.date == bar.date && v.price == bar.close
    && v.value == v.cash + v.shares as real * bar.close
    && Sound(Ledger(v.cash, v.shares))
    && v.value > 0.0
  }

  /** From a positive capital and a transaction cost below 100%, the ledger stays sound and every equity line follows its bar. */
  lemma {:induction false} ReplayIsSound(bars: seq<Bar>, signals: seq<Signal>, tc: real, initial: real, k: nat)
    requires k <= |bars| && |signals| == |bars| && PositivePrices(bars)
    requires initial > 0.0 && tc < 1.0
    ensures var b := Replay(bars, signals, tc, initial, k);
      Sound(b.ledger) && forall i :: 0 <= i < k ==> ValuedOn(b.values[i], bars[i])
  {
    if k > 0 {
      ReplayIsSound(bars, signals, tc, initial, k - 1);
      ReplayStep(bars, signals, tc, initial, k - 1);
      var before := Replay(bars, signals, tc, initial, k - 1);
      var bar, signal := bars[k - 1], signals[k - 1];
      ExecuteKeepsSound(before.ledger, signal.signalType, signal.confidence, bar, tc);
      var l := Execute(before.ledger, signal.signalType, signal.confidence, bar, tc).ledger;
      SoundLineValued(l, bar);
      ValuedExtend(before.values, Valuation(l, bar), bars, k);
    }
  }

  /** Lines that follow the first `k - 1` bars, then one that follows bar `k - 1`, follow the first `k` bars. */
  lemma ValuedExtend(vs: seq<DayValue>, v: DayValue, bars: seq<Bar>, k: nat)
    requires 0 < k <= |bars| && |vs| == k - 1
    requires forall i :: 0 <= i < k - 1 ==> ValuedOn(vs[i], bars[i])
    requires ValuedOn(v, bars[k - 1])
    ensures forall i :: 0 <= i < k ==> ValuedOn((vs + [v])[i], bars[i])
  {
    forall i | 0 <= i < k
      ensures ValuedOn((vs + [v])[i], bars[i])
    {
      if i < k - 1 {
        assert (vs + [v])[i] == vs[i];
      }
    }
  }

  /** A sound ledger valued on a bar with a positive close gives a line that follows the bar. */
  lemma SoundLineValued(l: Ledger, bar: Bar)
    requires Sound(l) && bar.close > 0.0
    ensures ValuedOn(Valuation(l, bar), bar)
  {
    SoundIsPositive(l, bar.close);
  }

  predicate Chronological(trades: seq<Trade>) {
    forall i, j :: 0 <= i < j < |trades| ==> trades[i].date <= trades[j].date
  }

  /** Over bars sorted by date the trade log is in date order, one trade per day at most. */
  lemma {:induction false} ReplayIsChronological(bars: seq<Bar>, signals: seq<Signal>, tc: real, initial: real,
                                                 k: nat)
    requires k <= |bars| && |signals| == |bars| && PositivePrices(bars) && SortedByDate(bars)
    ensures var ts := Replay(bars, signals, tc, initial, k).trades;
      Chronological(ts) && forall i :: 0 <= i < |ts| ==> exists d :: 0 <= d < k && ts[i].date == bars[d].date
  {
    if k > 0 {
      ReplayIsChronological(bars, signals, tc, initial, k - 1);
    }
  }

  /**
   * The day loop of `run_backtest`: each day's sentiment and indicators, the signal,
   * the trade and the equity line, with the ledger kept in two variables.
   */
  method SimulateDays(feed: Feed, bars: seq<Bar>, tc: real, initial: real) returns (book: Book)
    requires PositivePrices(bars)
    ensures book == Replay(bars, Signals(feed, bars), tc, initial, |bars|)
  {
    ghost var signals := Signals(feed, bars);
    var cash, shares := initial, 0;
    var trades: seq<Trade> := [];
    var values: seq<DayValue> := [];
    var i := 0;
    while i < |bars|
      invariant 0 <= i <= |bars|
      invariant Book(Ledger(cash, shares), trades, values) == Replay(bars, signals, tc, initial, i)
    {
      ReplayStep(bars, signals, tc, initial, i);
      ghost var before := Replay(bars, signals, tc, initial, i);
      var bar := bars[i];
      var signal := DaySignal(feed, bars, i);
      ghost var step := Execute(before.ledger, signal.signalType, signal.confidence, bar, tc);
      var trade;
      cash, shares, trade := ExecuteSignal(cash, shares, signal.signalType, signal.confidence, bar, tc);
      assert Step(Ledger(cash, shares), trade) == step;
      if trade.Some? {
        trades := trades + [trade.value];
      }
      assert trades == before.trades + (if step.trade.Some? then [step.trade.value] else []);
      values := values + [Valuation(Ledger(cash, shares), bar)];
      i := i + 1;
    }
    book := Book(Ledger(cash, shares), trades, values);
  }

  /**
   * The signal block of the day loop: the sentiment as of the day, the indicators
   * from the bars up to the day, then the strategy's signal.
   */
  method DaySignal(feed: Feed, bars: seq<Bar>, i: nat) returns (signal: Signal)
    requires i < |bars|
    ensures signal == Signals(feed, bars)[i]
  {
    var bar := bars[i];
    var sentiment := SentimentOn(feed.rows, bar.date);
    var seen := UpTo(bars, bar.date);
    var market := if |seen| >= IndicatorWindow then MarketData(feed.indicate(seen, bar.close)) else MarketData(None);
    signal := feed.decide(sentiment, market);
  }

  /** The trade block of the day loop: buy on a buy signal with cash, sell everything on a sell signal with shares. */
  method ExecuteSignal(cash: real, shares: int, kind: SignalKind, confidence: real, bar: Bar, tc: real)
    returns (cash': real, shares': int, trade: Option<Trade>)
    requires bar.close > 0.0
    ensures Step(Ledger(cash', shares'), trade) == Execute(Ledger(cash, shares), kind, confidence, bar, tc)
  {
    cash', shares', trade := cash, shares, None;
    if kind == Buy && cash > 0.0 {
      var n := SharesToBuy(cash, confidence, bar.close);
      if n > 0 {
        var cost := Amount(n, bar.close, 1.0 + tc);
        if cost <= cash {
          cash' := cash - cost;
          shares' := shares + n;
          trade := Some(Trade(bar.date, Bought, n, bar.close, cost));
        }
      }
    } else if kind == Sell && shares > 0 {
      var revenue := Amount(shares, bar.close, 1.0 - tc);
      cash' := cash + revenue;
      shares' := 0;
      trade := Some(Trade(bar.date, Sold, shares, bar.close, revenue));
    }
  }

  // Metrics

  /** The value column of the equity curve. */
  function Equity(values: seq<DayValue>): (e: seq<real>)
    ensures |e| == |values| && forall i :: 0 <= i < |values| ==> e[i] == values[i].value
  {
    seq(|values|, i requires 0 <= i < |values| => values[i].value)
  }

  predicate AllPositive(xs: seq<real>) {
    forall i :: 0 <= i < |xs| ==> xs[i] > 0.0
  }

  /** `total_return`: the gain over the initial capital, in percent. */
  function TotalReturn(final: real, initial: real): (r: real)
    requires initial > 0.0
    ensures r > 0.0 <==> final > initial
    ensures r == 0.0 <==> final == initial
    ensures final > 0.0 ==> r > -100.0
  {
    QuotientOrder(final - initial, initial, 0.0);
    QuotientOrder(initial - final, initial, 0.0);
    QuotientOrder(final - initial, initial, -1.0);
    (final - initial) / initial * 100.0
  }

  /** The daily returns: `pct_change()` with its leading gap dropped, or `[0.0]` for a single day. */
  function DailyReturns(equity: seq<real>): (rs: seq<real>)
    requires AllPositive(equity)
    ensures |equity| > 1 ==> rs == DailyReturnsFrom(equity)
    ensures |equity| <= 1 ==> rs == [0.0]
  {
    if |equity| > 1 then DailyReturnsFrom(equity) else [0.0]
  }

  /** `pct_change()` without its leading gap: each day's value over the day before's, less one. */
  function DailyReturnsFrom(equity: seq<real>): (rs: seq<real>)
    requires AllPositive(equity) && |equity| > 1
    ensures |rs| == |equity| - 1
  {
    seq(|equity| - 1, i requires 0 <= i < |equity| - 1 => equity[i + 1] / equity[i] - 1.0)
  }

  /** Between positive values every daily return exceeds -100% and carries one day's value to the next. */
  lemma ReturnsCompound(equity: seq<real>)
    requires AllPositive(equity) && |equity| > 1
    ensures var rs := DailyReturnsFrom(equity);
      forall i {:trigger rs[i]} :: 0 <= i < |rs| ==> rs[i] > -1.0 && (1.0 + rs[i]) * equity[i] == equity[i + 1]
  {
    var rs := DailyReturnsFrom(equity);
    forall i {:trigger rs[i]} | 0 <= i < |rs|
      ensures rs[i] > -1.0 && (1.0 + rs[i]) * equity[i] == equity[i + 1]
    {
      ReturnAt(equity, i);
    }
  }

  /** The return of day `i + 1` exceeds -100% and carries day `i`'s value to day `i + 1`'s. */
  lemma ReturnAt(equity: seq<real>, i: nat)
    requires AllPositive(equity) && i + 1 < |equity|
    ensures var r := DailyReturnsFrom(equity)[i];
      r > -1.0 && (1.0 + r) * equity[i] == equity[i + 1]
  {
    var a, b := equity[i + 1], equity[i];
    assert a > 0.0 && b > 0.0;
    ReturnStep(a, b, DailyReturnsFrom(equity)[i]);
  }

  lemma ReturnStep(a: real, b: real, r: real)
    requires a > 0.0 && b > 0.0 && r == a / b - 1.0
    ensures r > -1.0 && (1.0 + r) * b == a
  {
    QuotientOrder(a, b, 0.0);
    assert (1.0 + r) * b == (a / b) * b;
  }

  /** The growth of one unit after day `k`: the product of one plus each return up to day `k`. */
  function Level(rs: seq<real>, k: nat): real
    requires k < |rs|
  {
    (if k == 0 then 1.0 else Level(rs, k - 1)) * (1.0 + rs[k])
  }

  /** `(1 + returns).cumprod()`: the growth of one unit after each day. */
  function Growth(rs: seq<real>): (g: seq<real>)
    ensures |g| == |rs|
  {
    seq(|rs|, k requires 0 <= k < |rs| => Level(rs, k))
  }

  /** Returns above -100% keep every level of growth positive. */
  lemma {:induction false} LevelPositive(rs: seq<real>, k: nat)
    requires k < |rs|
    requires forall i :: 0 <= i < |rs| ==> rs[i] > -1.0
    ensures Level(rs, k) > 0.0
  {
    if k > 0 {
      LevelPositive(rs, k - 1);
    }
    PositiveProduct(if k == 0 then 1.0 else Level(rs, k - 1), 1.0 + rs[k]);
  }

  lemma GrowthPositive(rs: seq<real>)
    requires forall i :: 0 <= i < |rs| ==> rs[i] > -1.0
    ensures AllPositive(Growth(rs))
  {
    forall k | 0 <= k < |rs|
      ensures Growth(rs)[k] > 0.0
    {
      LevelPositive(rs, k);
    }
  }

  /** The growth after day `k` is the value the day after over the first day's value. */
  lemma GrowthTelescopes(equity: seq<real>, k: nat)
    requires AllPositive(equity) && |equity| > 1 && k < |equity| - 1
    ensures Growth(DailyReturnsFrom(equity))[k] == equity[k + 1] / equity[0]
  {
    var rs := DailyReturnsFrom(equity);
    ReturnsCompound(equity);
    LevelScales(rs, equity, k);
    QuotientOf(equity[k + 1], equity[0], Level(rs, k));
  }

  /**
   * When each return carries one value to the next, the growth after day `k`
   * times the first value is the value the day after.
   */
  lemma {:induction false} LevelScales(rs: seq<real>, e: seq<real>, k: nat)
    requires |e| == |rs| + 1 && k < |rs|
    requires forall i {:trigger rs[i]} :: 0 <= i < |rs| ==> (1.0 + rs[i]) * e[i] == e[i + 1]
    ensures Level(rs, k) * e[0] == e[k + 1]
  {
    var before := if k == 0 then 1.0 else Level(rs, k - 1);
    if k > 0 {
      LevelScales(rs, e, k - 1);
    }
    assert (1.0 + rs[k]) * e[k] == e[k + 1];
    ScaleChain(before, 1.0 + rs[k], e[0], e[k], e[k + 1]);
  }

  /** `cummax()`: the highest level up to day `k`. */
  function Peak(levels: seq<real>, k: nat): (p: real)
    requires k < |levels|
    ensures forall i :: 0 <= i <= k ==> levels[i] <= p
    ensures exists i :: 0 <= i <= k && levels[i] == p
  {
    if k == 0 then levels[0] else Max(Peak(levels, k - 1), levels[k])
  }

  /** `min()`: the smallest number of a non-empty sequence. */
  function Minimum(xs: seq<real>): (m: real)
    requires xs != []
    ensures forall i :: 0 <= i < |xs| ==> m <= xs[i]
    ensures exists i :: 0 <= i < |xs| && xs[i] == m
  {
    if |xs| == 1 then xs[0]
    else
      var m := Minimum(xs[..|xs| - 1]);
      assert forall i :: 0 <= i < |xs| - 1 ==> xs[..|xs| - 1][i] == xs[i];
      if xs[|xs| - 1] < m then xs[|xs| - 1] else m
  }

  /** Each level's fall from the running maximum, as a fraction of that maximum. */
  function Drawdowns(levels: seq<real>): (d: seq<real>)
    requires AllPositive(levels)
    ensures |d| == |levels|
    ensures forall k :: 0 <= k < |levels| ==> -1.0 < d[k] <= 0.0
  {
    seq(|levels|, k requires 0 <= k < |levels| => DrawdownAt(levels, k))
  }

  /** The fall of day `k` from the peak so far: never a gain, never the whole peak. */
  function DrawdownAt(levels: seq<real>, k: nat): (d: real)
    requires AllPositive(levels) && k < |levels|
    ensures -1.0 < d <= 0.0
  {
    var peak := Peak(levels, k);
    assert peak > 0.0;
    QuotientOrder(levels[k] - peak, peak, -1.0);
    QuotientOrder(levels[k] - peak, peak, 0.0);
    (levels[k] - peak) / peak
  }

  /**
   * `max_drawdown` as written: the cumulative product starts from the first daily
   * return, so the first day's value is never a peak and a fall from it goes unseen.
   */
  function MaxDrawdownAsWritten(equity: seq<real>): (dd: real)
    requires AllPositive(equity) && |equity| > 1
    ensures -100.0 < dd <= 0.0
  {
    var rs := DailyReturnsFrom(equity);
    ReturnsCompound(equity);
    GrowthPositive(rs);
    var worst := Minimum(Drawdowns(Growth(rs)));
    assert worst in Drawdowns(Growth(rs));
    worst * 100.0
  }

  /** `max_drawdown` with the first day's value as the starting level 1.0 of the curve. */
  function MaxDrawdown(equity: seq<real>): (dd: real)
    requires AllPositive(equity) && |equity| > 1
    ensures -100.0 < dd <= 0.0
  {
    var rs := DailyReturnsFrom(equity);
    ReturnsCompound(equity);
    GrowthPositive(rs);
    var levels := [1.0] + Growth(rs);
    var worst := Minimum(Drawdowns(levels));
    assert worst in Drawdowns(levels);
    worst * 100.0
  }

  /** The curve 100, 50, 60 halves after the first day: as written the drawdown reads 0%, not -50%. */
  lemma DrawdownMissesFirstPeak()
    ensures MaxDrawdownAsWritten([100.0, 50.0, 60.0]) == 0.0
    ensures MaxDrawdown([100.0, 50.0, 60.0]) == -50.0
  {
    HalvingCurveGrowth();
    HalvingCurveAsWritten();
    HalvingCurveCorrected();
  }

  lemma HalvingCurveGrowth()
    ensures Growth(DailyReturnsFrom([100.0, 50.0, 60.0])) == [0.5, 0.6]
  {
    var rs := DailyReturnsFrom([100.0, 50.0, 60.0]);
    assert rs == [-0.5, 0.2];
    assert Level(rs, 0) == 0.5;
    assert Level(rs, 1) == 0.6;
  }

  lemma HalvingCurveAsWritten()
    ensures var g := [0.5, 0.6]; Minimum(Drawdowns(g)) == 0.0
  {
    var g := [0.5, 0.6];
    assert Peak(g, 0) == 0.5 && Peak(g, 1) == 0.6;
    var dw := Drawdowns(g);
    assert dw == [0.0, 0.0];
    assert dw[..1] == [0.0];
  }

  lemma HalvingCurveCorrected()
    ensures var levels := [1.0] + [0.5, 0.6]; Minimum(Drawdowns(levels)) == -0.5
  {
    var levels := [1.0] + [0.5, 0.6];
    assert levels == [1.0, 0.5, 0.6];
    assert Peak(levels, 0) == 1.0 && Peak(levels, 1) == 1.0 && Peak(levels, 2) == 1.0;
    var dc := Drawdowns(levels);
    assert dc == [0.0, -0.5, -0.4];
    assert dc[..2] == [0.0, -0.5];
    assert dc[..2][..1] == [0.0];
  }

  /**
   * The corrected drawdown measures each day against the highest value so far,
   * the first day included: the level of day `k + 1` is its value over the first.
   */
  lemma MaxDrawdownLevels(equity: seq<real>, k: nat)
    requires AllPositive(equity) && |equity| > 1 && k < |equity|
    ensures ([1.0] + Growth(DailyReturnsFrom(equity)))[k] == equity[k] / equity[0]
  {
    if k > 0 {
      GrowthTelescopes(equity, k - 1);
    }
  }

  // Win rate

  /** `buy_prices`: a dictionary from trade date to price, in insertion order. */
  type Prices = seq<(Date, real)>

  /** `buy_prices[date] = price`: replaces the price of a known date in place, otherwise appends. */
  function Assign(d: Prices, date: Date, price: real): (r: Prices)
    ensures r != []
    ensures |r| == |d| || |r| == |d| + 1
  {
    if d == [] then [(date, price)]
    else if d[0].0 == date then [(date, price)] + d[1..]
    else [d[0]] + Assign(d[1..], date, price)
  }

  predicate IncreasingKeys(d: Prices) {
    forall i, j :: 0 <= i < j < |d| ==> d[i].0 < d[j].0
  }

  /** Assigning a date no earlier than every key keeps the keys increasing and makes that price the last one. */
  lemma {:induction false} AssignLatest(d: Prices, date: Date, price: real)
    requires IncreasingKeys(d) && forall i :: 0 <= i < |d| ==> d[i].0 <= date
    ensures var r := Assign(d, date, price);
      IncreasingKeys(r) && r[|r| - 1] == (date, price)
      && forall i :: 0 <= i < |r| ==> r[i].0 <= date
  {
    if d != [] && d[0].0 != date {
      var tail := d[1..];
      assert forall i :: 0 <= i < |tail| ==> tail[i] == d[i + 1];
      AssignLatest(tail, date, price);
      AssignKeys(tail, date, price);
      var rest := Assign(tail, date, price);
      forall i | 0 <= i < |rest|
        ensures d[0].0 < rest[i].0
      {
        if rest[i].0 != date {
          var j :| 0 <= j < |tail| && tail[j].0 == rest[i].0;
          assert d[j + 1].0 == rest[i].0;
        }
      }
      PrependIncreasing(d[0], rest);
    }
  }

  /** A key below every key of an increasing dictionary can go in front of it. */
  lemma PrependIncreasing(x: (Date, real), rest: Prices)
    requires IncreasingKeys(rest) && forall i :: 0 <= i < |rest| ==> x.0 < rest[i].0
    ensures IncreasingKeys([x] + rest)
  {
    var r := [x] + rest;
    forall i, j | 0 <= i < j < |r|
      ensures r[i].0 < r[j].0
    {
      assert r[j] == rest[j - 1];
      if i > 0 {
        assert r[i] == rest[i - 1];
      }
    }
  }

  /** The keys after an assignment are the old keys and the assigned date. */
  lemma {:induction false} AssignKeys(d: Prices, date: Date, price: real)
    ensures forall i :: 0 <= i < |Assign(d, date, price)| ==>
      Assign(d, date, price)[i].0 == date || exists j :: 0 <= j < |d| && d[j].0 == Assign(d, date, price)[i].0
  {
    if d != [] && d[0].0 != date {
      AssignKeys(d[1..], date, price);
      var rest := Assign(d[1..], date, price);
      forall i | 0 <= i < |Assign(d, date, price)|
        ensures Assign(d, date, price)[i].0 == date || exists j :: 0 <= j < |d| && d[j].0 == Assign(d, date, price)[i].0
      {
        if i > 0 {
          assert Assign(d, date, price)[i] == rest[i - 1];
          if rest[i - 1].0 != date {
            var j :| 0 <= j < |d[1..]| && d[1..][j].0 == rest[i - 1].0;
            assert d[j + 1].0 == rest[i - 1].0;
          }
        } else {
          assert d[0].0 == Assign(d, date, price)[0].0;
        }
      }
    }
  }

  /** The tallies of the win-rate loop: profitable sells, sells, and the buy prices seen. */
  datatype Tally = Tally(profitable: nat, sells: nat, buyPrices: Prices)

  /** The win-rate loop over the first `k` trades. */
  function TallyOf(trades: seq<Trade>, k: nat): (t: Tally)
    requires k <= |trades|
    ensures t.profitable <= t.sells <= k
  {
    if k == 0 then Tally(0, 0, [])
    else
      var t := TallyOf(trades, k - 1);
      var trade := trades[k - 1];
      if trade.side == Bought then Tally(t.profitable, t.sells, Assign(t.buyPrices, trade.date, trade.price))
      else
        var profitable := t.buyPrices != [] && trade.price > t.buyPrices[|t.buyPrices| - 1].1;
        Tally(t.profitable + (if profitable then 1 else 0), t.sells + 1, t.buyPrices)
  }

  /** `win_rate`: the percentage of sells above the last buy price, 0 with fewer than two trades or no sells. */
  function WinRateOf(trades: seq<Trade>): (r: real)
    ensures 0.0 <= r <= 100.0
    ensures |trades| < 2 ==> r == 0.0
    ensures SellCount(trades, |trades|) == 0 ==> r == 0.0
  {
    if |trades| < 2 then 0.0
    else
      var t := TallyOf(trades, |trades|);
      if t.sells > 0 then
        QuotientBounded(t.profitable as real, t.sells as real);
        TallyCountsSells(trades, |trades|);
        t.profitable as real / t.sells as real * 100.0
      else 0.0
  }

  /** The price of the most recent purchase among the first `k` trades. */
  function LastBuy(trades: seq<Trade>, k: nat): Option<real>
    requires k <= |trades|
  {
    if k == 0 then None
    else if trades[k - 1].side == Bought then Some(trades[k - 1].price)
    else LastBuy(trades, k - 1)
  }

  /** The sells among the first `k` trades that sold above the most recent purchase before them. */
  function ProfitableSells(trades: seq<Trade>, k: nat): nat
    requires k <= |trades|
  {
    if k == 0 then 0
    else
      var trade := trades[k - 1];
      var profitable := trade.side == Sold && LastBuy(trades, k - 1).Some? && trade.price > LastBuy(trades, k - 1).value;
      ProfitableSells(trades, k - 1) + (if profitable then 1 else 0)
  }

  /** The number of sells among the first `k` trades. */
  function SellCount(trades: seq<Trade>, k: nat): nat
    requires k <= |trades|
  {
    if k == 0 then 0 else SellCount(trades, k - 1) + (if trades[k - 1].side == Sold then 1 else 0)
  }

  /** The loop's sell tally counts the sells, whatever order the trades come in. */
  lemma {:induction false} TallyCountsSells(trades: seq<Trade>, k: nat)
    requires k <= |trades|
    ensures TallyOf(trades, k).sells == SellCount(trades, k)
  {
    if k > 0 {
      TallyCountsSells(trades, k - 1);
    }
  }

  /**
   * What the buy-price dictionary holds after the first `k` trades: dates of those
   * trades in increasing order, with the most recent purchase's price last.
   */
  predicate PricesTrack(trades: seq<Trade>, k: nat, prices: Prices)
    requires k <= |trades|
  {
    && (prices == [] <==> LastBuy(trades, k).None?)
    && (prices != [] ==> prices[|prices| - 1].1 == LastBuy(trades, k).value)
    && IncreasingKeys(prices)
    && forall i :: 0 <= i < |prices| ==> exists j :: 0 <= j < k && prices[i].0 == trades[j].date
  }

  /** For a trade log in date order the dictionary's last price is the most recent purchase. */
  lemma {:induction false} TallyTracksLastBuy(trades: seq<Trade>, k: nat)
    requires k <= |trades| && Chronological(trades)
    ensures PricesTrack(trades, k, TallyOf(trades, k).buyPrices)
  {
    if k > 0 {
      TallyTracksLastBuy(trades, k - 1);
      var prices := TallyOf(trades, k - 1).buyPrices;
      if trades[k - 1].side == Bought {
        BuyTracksLastBuy(trades, k, prices);
      } else {
        forall i | 0 <= i < |prices|
          ensures exists j :: 0 <= j < k && prices[i].0 == trades[j].date
        {
          var j :| 0 <= j < k - 1 && prices[i].0 == trades[j].date;
        }
      }
    }
  }

  /** A purchase dated no earlier than every earlier trade becomes the dictionary's last entry. */
  lemma BuyTracksLastBuy(trades: seq<Trade>, k: nat, prices: Prices)
    requires 0 < k <= |trades| && Chronological(trades) && trades[k - 1].side == Bought
    requires PricesTrack(trades, k - 1, prices)
    ensures PricesTrack(trades, k, Assign(prices, trades[k - 1].date, trades[k - 1].price))
  {
    var trade := trades[k - 1];
    forall i | 0 <= i < |prices|
      ensures prices[i].0 <= trade.date
    {
      var j :| 0 <= j < k - 1 && prices[i].0 == trades[j].date;
    }
    AssignLatest(prices, trade.date, trade.price);
    AssignKeys(prices, trade.date, trade.price);
    var r := Assign(prices, trade.date, trade.price);
    forall i | 0 <= i < |r|
      ensures exists j :: 0 <= j < k && r[i].0 == trades[j].date
    {
      if r[i].0 != trade.date {
        var j :| 0 <= j < |prices| && prices[j].0 == r[i].0;
        var j' :| 0 <= j' < k - 1 && prices[j].0 == trades[j'].date;
      } else {
        assert r[i].0 == trades[k - 1].date;
      }
    }
  }

  /** Over a trade log in date order the loop counts every sell, and exactly the sells above the latest buy before them. */
  lemma {:induction false} TallyCountsProfitableSells(trades: seq<Trade>, k: nat)
    requires k <= |trades| && Chronological(trades)
    ensures TallyOf(trades, k).profitable == ProfitableSells(trades, k)
    ensures TallyOf(trades, k).sells == SellCount(trades, k)
  {
    if k > 0 {
      TallyCountsProfitableSells(trades, k - 1);
      TallyTracksLastBuy(trades, k - 1);
      var prices := TallyOf(trades, k - 1).buyPrices;
      var last := LastBuy(trades, k - 1);
      assert (prices != []) == last.Some?;
      assert prices != [] ==> prices[|prices| - 1].1 == last.value;
    }
  }

  /** Over a trade log in date order the win rate is the share of sells above the latest buy before them. */
  lemma WinRateCountsProfitableSells(trades: seq<Trade>)
    requires Chronological(trades) && |trades| >= 2 && SellCount(trades, |trades|) > 0
    ensures WinRateOf(trades)
         == ProfitableSells(trades, |trades|) as real / SellCount(trades, |trades|) as real * 100.0
  {
    TallyCountsProfitableSells(trades, |trades|);
  }

  /** The win-rate loop of `run_backtest`, run over the finished trade log. */
  method WinRate(trades: seq<Trade>) returns (rate: real)
    ensures rate == WinRateOf(trades)
  {
    if |trades| < 2 {
      return 0.0;
    }
    var profitable, sells := 0, 0;
    var buyPrices: Prices := [];
    var i := 0;
    while i < |trades|
      invariant 0 <= i <= |trades|
      invariant Tally(profitable, sells, buyPrices) == TallyOf(trades, i)
    {
      var trade := trades[i];
      if trade.side == Bought {
        buyPrices := Assign(buyPrices, trade.date, trade.price);
      } else {
        sells := sells + 1;
        if buyPrices != [] {
          var lastBuyPrice := buyPrices[|buyPrices| - 1].1;
          if trade.price > lastBuyPrice {
            profitable := profitable + 1;
          }
        }
      }
      i := i + 1;
    }
    rate := if sells > 0 then profitable as real / sells as real * 100.0 else 0.0;
  }

  // Benchmark

  /** The S&P 500's return over the range, in percent: 0 unless the range holds at least two bars. */
  function BenchmarkReturn(benchmark: seq<Bar>, start: Date, end: Date): (r: real)
    requires PositivePrices(benchmark)
    ensures |InRange(benchmark, start, end)| < 2 ==> r == 0.0
    ensures var rows := InRange(benchmark, start, end);
      |rows| >= 2 ==> r == TotalReturn(rows[|rows| - 1].close, rows[0].close)
  {
    var rows := InRange(benchmark, start, end);
    if |rows| > 1 then
      assert rows[0] in benchmark;
      TotalReturn(rows[|rows| - 1].close, rows[0].close)
    else 0.0
  }

  // The run

  /** One line of the reported equity curve. */
  datatype Point = Point(date: Date, value: real)

  /** One line of the reported trade log. */
  datatype Fill = Fill(date: Date, side: Side, shares: int, price: real)

  datatype Report = Report(
    ticker: string,
    startDate: Date,
    endDate: Date,
    initialCapital: real,
    finalValue: real,
    totalReturn: real,
    maxDrawdown: real,
    winRate: real,
    vsSp500Performance: real,
    sp500Return: real,
    dailyReturns: seq<real>,
    dailyValues: seq<Point>,
    trades: seq<Fill>,
    totalTrades: nat)

  /** How a run ends: a record with only an error and the ticker, an exception, or the report. */
  datatype Outcome = NoData(error: string, ticker: string) | Raised(exception: string) | Finished(report: Report)

  const NoMarketData: string := "No market data available for the specified period"
  const NoDataInRange: string := "No market data in the specified date range"

  /** A single-day run has no `daily_return` column, and reading it raises. */
  const MissingReturns: string := "KeyError: 'daily_return'"

  function Points(values: seq<DayValue>): (ps: seq<Point>)
    ensures |ps| == |values|
  {
    seq(|values|, i requires 0 <= i < |values| => Point(values[i].date, values[i].value))
  }

  function Fills(trades: seq<Trade>): (fs: seq<Fill>)
    ensures |fs| == |trades|
  {
    seq(|trades|, i requires 0 <= i < |trades| => Fill(trades[i].date, trades[i].side, trades[i].shares, trades[i].price))
  }

  /** The preconditions of a meaningful run: positive capital, a cost below 100%, positive closes. */
  predicate Admissible(engine: Engine, bars: seq<Bar>, benchmark: seq<Bar>) {
    engine.initialCapital > 0.0 && engine.transactionCost < 1.0 && PositivePrices(bars) && PositivePrices(benchmark)
  }

  lemma PositiveAfterMask(bars: seq<Bar>, keep: Bar -> bool)
    requires PositivePrices(bars)
    ensures PositivePrices(Where(bars, keep))
  {
    var r := Where(bars, keep);
    forall i | 0 <= i < |r|
      ensures r[i].close > 0.0
    {
      assert r[i] in bars;
    }
  }

  lemma PositiveAfterSort(bars: seq<Bar>)
    requires PositivePrices(bars)
    ensures PositivePrices(SortByDate(bars))
  {
    var r := SortByDate(bars);
    forall i | 0 <= i < |r|
      ensures r[i].close > 0.0
    {
      assert r[i] in multiset(bars);
    }
  }

  /** The metrics of a finished day loop. */
  function Summarize(engine: Engine, ticker: string, start: Date, end: Date, book: Book, benchmark: seq<Bar>)
    : (o: Outcome)
    requires engine.initialCapital > 0.0 && PositivePrices(benchmark)
    requires book.values != [] && AllPositive(Equity(book.values))
    ensures o.Raised? <==> |book.values| == 1
    ensures o.Finished? ==> o.report.winRate == WinRateOf(book.trades) && 0.0 <= o.report.winRate <= 100.0
  {
    SummarizeWith(engine, ticker, start, end, book, benchmark, WinRateOf(book.trades))
  }

  /** The metrics of a finished day loop, given the win rate of its trades. */
  function SummarizeWith(engine: Engine, ticker: string, start: Date, end: Date, book: Book, benchmark: seq<Bar>,
                         winRate: real): (o: Outcome)
    requires engine.initialCapital > 0.0 && PositivePrices(benchmark)
    requires book.values != [] && AllPositive(Equity(book.values))
    ensures !o.NoData?
    ensures o.Raised? <==> |book.values| == 1
    ensures o.Raised? ==> o == Raised(MissingReturns)
    ensures o.Finished? ==>
      var r := o.report;
      && r.winRate == winRate && r.ticker == ticker && r.totalTrades == |book.trades|
      && r.finalValue == book.values[|book.values| - 1].value
      && r.vsSp500Performance == r.totalReturn - r.sp500Return
      && -100.0 < r.maxDrawdown <= 0.0
  {
    var equity := Equity(book.values);
    if |equity| == 1 then Raised(MissingReturns)
    else
      var final := equity[|equity| - 1];
      var total := TotalReturn(final, engine.initialCapital);
      var sp500 := BenchmarkReturn(benchmark, start, end);
      Finished(Report(ticker, start, end, engine.initialCapital, final, total, MaxDrawdown(equity),
                      winRate, total - sp500, sp500, DailyReturns(equity), Points(book.values),
                      Fills(book.trades), |book.trades|))
  }

  /** The bars of the run: the fetched frame, masked to the range and sorted by date. */
  function RunBars(bars: seq<Bar>, start: Date, end: Date): (r: seq<Bar>)
    ensures SortedByDate(r)
    ensures forall b :: b in r <==> b in bars && start <= b.date <= end
  {
    var kept := InRange(bars, start, end);
    var r := SortByDate(kept);
    assert forall b :: b in r <==> b in multiset(kept);
    r
  }

  /** `run_backtest`, on the frames the fetcher returns for the computed period. */
  function Backtest(engine: Engine, feed: Feed, start: Date, end: Date, fetch: string -> seq<Bar>,
                    fetchBenchmark: string -> seq<Bar>): (o: Outcome)
    requires Admissible(engine, fetch(PeriodFor(end - start)), fetchBenchmark(PeriodFor(end - start)))
    ensures o.NoData? ==> o.ticker == feed.ticker
    ensures o.Raised? ==> o == Raised(MissingReturns)
    ensures o.Finished? ==>
      && o.report.ticker == feed.ticker
      && 0.0 <= o.report.winRate <= 100.0 && -100.0 < o.report.maxDrawdown <= 0.0
  {
    var period := PeriodFor(end - start);
    var market := fetch(period);
    if market == [] then NoData(NoMarketData, feed.ticker)
    else
      PositiveAfterMask(market, (b: Bar) => start <= b.date <= end);
      var kept := InRange(market, start, end);
      if kept == [] then NoData(NoDataInRange, feed.ticker)
      else
        PositiveAfterSort(kept);
        var bars := SortByDate(kept);
        var signals := Signals(feed, bars);
        var book := Replay(bars, signals, engine.transactionCost, engine.initialCapital, |bars|);
        ReplayIsSound(bars, signals, engine.transactionCost, engine.initialCapital, |bars|);
        Summarize(engine, feed.ticker, start, end, book, fetchBenchmark(period))
  }

  /**
   * A run reports no data exactly when no fetched bar falls in the range: with the
   * first message when the fetch is empty, with the second when the mask empties it.
   */
  lemma BacktestNoData(engine: Engine, feed: Feed, start: Date, end: Date, fetch: string -> seq<Bar>,
                       fetchBenchmark: string -> seq<Bar>)
    requires Admissible(engine, fetch(PeriodFor(end - start)), fetchBenchmark(PeriodFor(end - start)))
    ensures var market := fetch(PeriodFor(end - start));
      var o := Backtest(engine, feed, start, end, fetch, fetchBenchmark);
      && (o.NoData? <==> InRange(market, start, end) == [])
      && (market == [] ==> o == NoData(NoMarketData, feed.ticker))
      && (market != [] && InRange(market, start, end) == [] ==> o == NoData(NoDataInRange, feed.ticker))
  {
    var market := fetch(PeriodFor(end - start));
    if market == [] {
      assert InRange(market, start, end) == [];
    }
  }

  /** A run whose range holds exactly one bar raises on the missing returns column, and only such a run raises. */
  lemma BacktestRaises(engine: Engine, feed: Feed, start: Date, end: Date, fetch: string -> seq<Bar>,
                       fetchBenchmark: string -> seq<Bar>)
    requires Admissible(engine, fetch(PeriodFor(end - start)), fetchBenchmark(PeriodFor(end - start)))
    ensures var kept := InRange(fetch(PeriodFor(end - start)), start, end);
      var o := Backtest(engine, feed, start, end, fetch, fetchBenchmark);
      && (o.Raised? <==> |kept| == 1)
      && (o.Raised? ==> o == Raised(MissingReturns))
  {
    var market := fetch(PeriodFor(end - start));
    var kept := InRange(market, start, end);
    BacktestNoData(engine, feed, start, end, fetch, fetchBenchmark);
    if kept != [] {
      assert market != [];
      assert |SortByDate(kept)| == |multiset(kept)| == |kept|;
    }
  }

  /**
   * What a report over `n` days promises: one equity point a day and one return a day
   * after the first, at most one trade a day, a positive final value, a return above
   * -100% that is positive exactly when the capital grew, a drawdown in (-100%, 0],
   * a win rate in [0, 100] and the excess over the S&P 500.
   */
  predicate ReportCovers(r: Report, engine: Engine, ticker: string, start: Date, end: Date, n: nat) {
    && r.ticker == ticker && r.startDate == start && r.endDate == end
    && r.initialCapital == engine.initialCapital
    && |r.dailyValues| == n && |r.dailyReturns| == n - 1 && n > 0
    && r.finalValue == r.dailyValues[n - 1].value
    && r.totalTrades == |r.trades| <= n
    && r.finalValue > 0.0 && r.totalReturn > -100.0
    && (r.totalReturn > 0.0 <==> r.finalValue > r.initialCapital)
    && -100.0 < r.maxDrawdown <= 0.0
    && 0.0 <= r.winRate <= 100.0
    && r.vsSp500Performance == r.totalReturn - r.sp500Return
  }

  /** The metrics of a single day raise; those of two days or more are a report that covers the days. */
  lemma SummaryCovers(engine: Engine, ticker: string, start: Date, end: Date, book: Book, benchmark: seq<Bar>)
    requires engine.initialCapital > 0.0 && PositivePrices(benchmark)
    requires book.values != [] && AllPositive(Equity(book.values))
    requires |book.trades| <= |book.values|
    ensures var o := Summarize(engine, ticker, start, end, book, benchmark);
      && (o.Raised? <==> |book.values| == 1)
      && (o.Raised? ==> o == Raised(MissingReturns))
      && (o.Finished? <==> |book.values| >= 2)
      && (o.Finished? ==> ReportCovers(o.report, engine, ticker, start, end, |book.values|))
  {
    var n := |book.values|;
    var o := Summarize(engine, ticker, start, end, book, benchmark);
    if n >= 2 {
      var r := o.report;
      assert r.dailyValues == Points(book.values);
      assert r.dailyValues[n - 1].value == Equity(book.values)[n - 1];
    }
  }

  /** A run over at least one bar is the summary of the replay of its bars, sorted by date. */
  lemma BacktestIsSummary(engine: Engine, feed: Feed, start: Date, end: Date, fetch: string -> seq<Bar>,
                          fetchBenchmark: string -> seq<Bar>)
    requires Admissible(engine, fetch(PeriodFor(end - start)), fetchBenchmark(PeriodFor(end - start)))
    requires InRange(fetch(PeriodFor(end - start)), start, end) != []
    ensures var bars := SortByDate(InRange(fetch(PeriodFor(end - start)), start, end));
      && |bars| == |InRange(fetch(PeriodFor(end - start)), start, end)|
      && PositivePrices(bars)
      && var book := Replay(bars, Signals(feed, bars), engine.transactionCost, engine.initialCapital, |bars|);
      && book.values != [] && AllPositive(Equity(book.values))
      && Backtest(engine, feed, start, end, fetch, fetchBenchmark)
         == Summarize(engine, feed.ticker, start, end, book, fetchBenchmark(PeriodFor(end - start)))
  {
    var market := fetch(PeriodFor(end - start));
    var kept := InRange(market, start, end);
    assert market != [];
    PositiveAfterSort(kept);
    var bars := SortByDate(kept);
    assert |bars| == |multiset(kept)| == |kept|;
    var signals := Signals(feed, bars);
    var book := Replay(bars, signals, engine.transactionCost, engine.initialCapital, |bars|);
    ReplayIsSound(bars, signals, engine.transactionCost, engine.initialCapital, |bars|);
    assert forall i :: 0 <= i < |bars| ==> Equity(book.values)[i] == book.values[i].value;
  }

  /** A run over at least two bars finishes with a report that covers every bar, and only such a run finishes. */
  lemma BacktestReport(engine: Engine, feed: Feed, start: Date, end: Date, fetch: string -> seq<Bar>,
                       fetchBenchmark: string -> seq<Bar>)
    requires Admissible(engine, fetch(PeriodFor(end - start)), fetchBenchmark(PeriodFor(end - start)))
    ensures var n := |InRange(fetch(PeriodFor(end - start)), start, end)|;
      var o := Backtest(engine, feed, start, end, fetch, fetchBenchmark);
      && (o.Finished? <==> n >= 2)
      && (o.Finished? ==> ReportCovers(o.report, engine, feed.ticker, start, end, n))
  {
    var kept := InRange(fetch(PeriodFor(end - start)), start, end);
    BacktestNoData(engine, feed, start, end, fetch, fetchBenchmark);
    if kept != [] {
      BacktestIsSummary(engine, feed, start, end, fetch, fetchBenchmark);
      var bars := SortByDate(kept);
      var book := Replay(bars, Signals(feed, bars), engine.transactionCost, engine.initialCapital, |bars|);
      SummaryCovers(engine, feed.ticker, start, end, book, fetchBenchmark(PeriodFor(end - start)));
    }
  }

  /**
   * The imperative `run_backtest`: fetch, mask, sort, run the day loop, then the
   * metrics, the win-rate loop and the benchmark.
   */
  method RunBacktest(engine: Engine, feed: Feed, start: Date, end: Date, fetch: string -> seq<Bar>,
                     fetchBenchmark: string -> seq<Bar>) returns (outcome: Outcome)
    requires Admissible(engine, fetch(PeriodFor(end - start)), fetchBenchmark(PeriodFor(end - start)))
    ensures outcome == Backtest(engine, feed, start, end, fetch, fetchBenchmark)
  {
    var period := PeriodFor(end - start);
    var market := fetch(period);
    if market == [] {
      return NoData(NoMarketData, feed.ticker);
    }
    PositiveAfterMask(market, (b: Bar) => start <= b.date <= end);
    var kept := InRange(market, start, end);
    if kept == [] {
      return NoData(NoDataInRange, feed.ticker);
    }
    PositiveAfterSort(kept);
    var bars := SortByDate(kept);
    var book := SimulateDays(feed, bars, engine.transactionCost, engine.initialCapital);
    ReplayIsSound(bars, Signals(feed, bars), engine.transactionCost, engine.initialCapital, |bars|);
    outcome := ReportMetrics(engine, feed.ticker, start, end, book, fetchBenchmark(period));
  }

  /** The metrics block of `run_backtest`: the win-rate loop, then returns, drawdown and the benchmark. */
  method ReportMetrics(engine: Engine, ticker: string, start: Date, end: Date, book: Book, benchmark: seq<Bar>)
    returns (outcome: Outcome)
    requires engine.initialCapital > 0.0 && PositivePrices(benchmark)
    requires book.values != [] && AllPositive(Equity(book.values))
    ensures outcome == Summarize(engine, ticker, start, end, book, benchmark)
  {
    var winRate := WinRate(book.trades);
    outcome := SummarizeWith(engine, ticker, start, end, book, benchmark, winRate);
  }
}
