/**
 * The budget gateway in front of the costed sentiment service: a sliding 60-second
 * window of request instants, per-day request counts and per-day cost, each day's
 * counters pruned to a seven-day retention window, and a separate cost tracker that
 * keeps thirty days of spending.
 *
 * Days are day ordinals. The source keys its dictionaries by ISO "YYYY-MM-DD"
 * strings and compares those strings; for four-digit years that ordering is the
 * ordering of the day ordinals, and `today - n` stands for `today - timedelta(days=n)`.
 * The wall clock is the explicit argument `now` (seconds), the calendar day the
 * explicit argument `today`. Loading and saving the state files is modelled by the
 * constructors' `saved` argument and by the functions that give the saved content.
 */
module RateLimiting {
  import opened Wrappers
  import opened Text
  import opened Numbers

  type Date = int
  type Instant = real

  /** Length of the per-minute window, in seconds. */
  const WindowSeconds: real := 60.0
  /** Days of request and cost counters kept by the rate limiter on a day change. */
  const RequestRetentionDays: int := 7
  /** Days of cost history written by the cost tracker. */
  const CostRetentionDays: int := 30

  /** The limiter's configuration; `costPerToken` is `cost_per_1k_tokens / 1000`. */
  datatype Limits = Limits(
    maxRequestsPerMinute: int,
    maxRequestsPerDay: int,
    maxDailyCost: real,
    costPerToken: real)

  /** Why a request was refused: the first ceiling that failed, with its configured value. */
  datatype Refusal =
    | PerMinuteExceeded(limit: int)
    | DailyRequestsExceeded(limit: int)
    | DailyCostExceeded(costLimit: real)

  /** The refusal message the source returns beside `False`. */
  function Message(r: Refusal): (m: string)
    ensures r.PerMinuteExceeded? ==> "Rate limit exceeded: " <= m
    ensures r.DailyRequestsExceeded? ==> "Daily limit exceeded: " <= m
    ensures r.DailyCostExceeded? ==> "Daily cost limit exceeded: $" <= m
  {
    match r
    case PerMinuteExceeded(n) => "Rate limit exceeded: " + IntToString(n) + " requests per minute"
    case DailyRequestsExceeded(n) => "Daily limit exceeded: " + IntToString(n) + " requests per day"
    case DailyCostExceeded(c) => "Daily cost limit exceeded: $" + Fixed2(c) + " USD per day"
  }

  /** The limiter's mutable state as a value. */
  datatype Counters = Counters(
    timestamps: seq<Instant>,
    dailyRequests: map<Date, int>,
    dailyCosts: map<Date, real>,
    lastResetDate: Date)

  /** The content of the state file: the two per-day dictionaries. */
  datatype SavedState = SavedState(dailyRequests: map<Date, int>, dailyCosts: map<Date, real>)

  /** The entries of `m` dated `cutoff` or later, with their values untouched. */
  function Since<V>(m: map<Date, V>, cutoff: Date): (r: map<Date, V>)
    ensures forall d :: d in r <==> d in m && d >= cutoff
    ensures forall d :: d in r ==> r[d] == m[d]
  {
    map d | d in m && d >= cutoff :: m[d]
  }

  /**
   * A day's request count, 0 when the day has no entry: the `defaultdict(int)`
   * lookup the source evidently intends at rate_limiter.py:98 and :120.
   */
  function CountOn(m: map<Date, int>, d: Date): (n: int)
    ensures d in m ==> n == m[d]
    ensures d !in m ==> n == 0
  {
    if d in m then m[d] else 0
  }

  /** A day's cost, 0.0 when the day has no entry (the `defaultdict(float)` lookup). */
  function CostOn(m: map<Date, real>, d: Date): (c: real)
    ensures d in m ==> c == m[d]
    ensures d !in m ==> c == 0.0
  {
    if d in m then m[d] else 0.0
  }

  /** `a` can be obtained from `b` by deleting elements, so it keeps their order. */
  predicate Subsequence<T(==)>(a: seq<T>, b: seq<T>)
    decreases |b|
  {
    if a == [] then true
    else if b == [] then false
    else (a[0] == b[0] && Subsequence(a[1..], b[1..])) || Subsequence(a, b[1..])
  }

  /**
   * The instants of `ts` strictly after `cutoff`, in their original order, each as
   * often as it occurs in `ts`.
   */
  function Recent(ts: seq<Instant>, cutoff: Instant): (r: seq<Instant>)
    ensures forall t :: multiset(r)[t] == if t > cutoff then multiset(ts)[t] else 0
    ensures forall t :: t in r ==> t > cutoff
    ensures Subsequence(r, ts)
    ensures |r| <= |ts|
  {
    if ts == [] then []
    else
      var rest := Recent(ts[1..], cutoff);
      assert ts == [ts[0]] + ts[1..];
      if ts[0] > cutoff then
        var r := [ts[0]] + rest;
        assert r[1..] == rest;
        r
      else
        rest
  }

  /** A timestamp at or before the cutoff is dropped, so the window shrinks. */
  lemma {:induction false} RecentDrops(ts: seq<Instant>, cutoff: Instant, x: Instant)
    requires x in ts && x <= cutoff
    ensures |Recent(ts, cutoff)| < |ts|
  {
    if ts[0] != x {
      RecentDrops(ts[1..], cutoff, x);
    } else {
      assert |Recent(ts[1..], cutoff)| <= |ts[1..]|;
    }
  }

  /** Cleaning at a later cutoff after an earlier one is cleaning at the later one. */
  lemma {:induction false} RecentLater(ts: seq<Instant>, a: Instant, b: Instant)
    requires a <= b
    ensures Recent(Recent(ts, a), b) == Recent(ts, b)
  {
    if ts != [] {
      RecentLater(ts[1..], a, b);
      if ts[0] > a {
        assert ([ts[0]] + Recent(ts[1..], a))[1..] == Recent(ts[1..], a);
      }
    }
  }

  /**
   * `_reset_if_new_day`: nothing changes on the same day; on a new day the last
   * reset date moves to `today` and both per-day dictionaries keep exactly the
   * entries dated seven days back or later.
   */
  function AfterReset(c: Counters, today: Date): (r: Counters)
    ensures today == c.lastResetDate ==> r == c
    ensures r.lastResetDate == today && r.timestamps == c.timestamps
    ensures today != c.lastResetDate ==>
      && (forall d :: d in r.dailyRequests <==> d in c.dailyRequests && d >= today - RequestRetentionDays)
      && (forall d :: d in r.dailyCosts <==> d in c.dailyCosts && d >= today - RequestRetentionDays)
    ensures forall d :: d in r.dailyRequests ==> d in c.dailyRequests && r.dailyRequests[d] == c.dailyRequests[d]
    ensures forall d :: d in r.dailyCosts ==> d in c.dailyCosts && r.dailyCosts[d] == c.dailyCosts[d]
  {
    if today == c.lastResetDate then c
    else
      var cutoff := today - RequestRetentionDays;
      c.(lastResetDate := today,
         dailyRequests := Since(c.dailyRequests, cutoff),
         dailyCosts := Since(c.dailyCosts, cutoff))
  }

  /** A second reset on the same day changes nothing. */
  lemma ResetIdempotent(c: Counters, today: Date)
    ensures AfterReset(AfterReset(c, today), today) == AfterReset(c, today)
  {
  }

  /** `_clean_old_timestamps`: keep only the instants in the last 60 seconds before `now`. */
  function AfterClean(c: Counters, now: Instant): (r: Counters)
    ensures r.timestamps == Recent(c.timestamps, now - WindowSeconds)
    ensures r.dailyRequests == c.dailyRequests && r.dailyCosts == c.dailyCosts
    ensures r.lastResetDate == c.lastResetDate
  {
    c.(timestamps := Recent(c.timestamps, now - WindowSeconds))
  }

  /**
   * The three ceilings of `check_rate_limit`, checked in order, each with `>=`, on
   * counters that are already reset and cleaned: the first failing one is the
   * refusal, and there is none only when all three pass.
   */
  function Verdict(l: Limits, c: Counters, today: Date): (r: Option<Refusal>)
    ensures r == Some(PerMinuteExceeded(l.maxRequestsPerMinute))
        <==> |c.timestamps| >= l.maxRequestsPerMinute
    ensures r == Some(DailyRequestsExceeded(l.maxRequestsPerDay))
        <==> |c.timestamps| < l.maxRequestsPerMinute
             && CountOn(c.dailyRequests, today) >= l.maxRequestsPerDay
    ensures r == Some(DailyCostExceeded(l.maxDailyCost))
        <==> |c.timestamps| < l.maxRequestsPerMinute
             && CountOn(c.dailyRequests, today) < l.maxRequestsPerDay
             && CostOn(c.dailyCosts, today) >= l.maxDailyCost
    ensures r == None
        <==> |c.timestamps| < l.maxRequestsPerMinute
             && CountOn(c.dailyRequests, today) < l.maxRequestsPerDay
             && CostOn(c.dailyCosts, today) < l.maxDailyCost
  {
    if |c.timestamps| >= l.maxRequestsPerMinute then Some(PerMinuteExceeded(l.maxRequestsPerMinute))
    else if CountOn(c.dailyRequests, today) >= l.maxRequestsPerDay then Some(DailyRequestsExceeded(l.maxRequestsPerDay))
    else if CostOn(c.dailyCosts, today) >= l.maxDailyCost then Some(DailyCostExceeded(l.maxDailyCost))
    else None
  }

  /** `check_rate_limit` as a transition: reset, clean, then the ordered verdict. */
  function Check(l: Limits, c: Counters, today: Date, now: Instant): (r: (Option<Refusal>, Counters))
    ensures r.1.lastResetDate == today
    ensures r.1.timestamps == Recent(c.timestamps, now - WindowSeconds)
    ensures r.1.dailyRequests == AfterReset(c, today).dailyRequests && r.1.dailyCosts == AfterReset(c, today).dailyCosts
    ensures r.0 == None
        <==> |r.1.timestamps| < l.maxRequestsPerMinute
             && CountOn(r.1.dailyRequests, today) < l.maxRequestsPerDay
             && CostOn(r.1.dailyCosts, today) < l.maxDailyCost
    ensures r.0 == Verdict(l, r.1, today)
  {
    var cleaned := AfterClean(AfterReset(c, today), now);
    (Verdict(l, cleaned, today), cleaned)
  }

  /**
   * Once the oldest instant of the window cleaned at `now` is 60 seconds old at
   * `later`, the window cleaned at `later` is smaller.
   */
  lemma WindowShrinks(ts: seq<Instant>, now: Instant, later: Instant)
    requires now <= later
    requires Recent(ts, now - WindowSeconds) != []
    requires Oldest(Recent(ts, now - WindowSeconds)) <= later - WindowSeconds
    ensures |Recent(ts, later - WindowSeconds)| < |Recent(ts, now - WindowSeconds)|
  {
    var window := Recent(ts, now - WindowSeconds);
    RecentLater(ts, now - WindowSeconds, later - WindowSeconds);
    RecentDrops(window, later - WindowSeconds, Oldest(window));
  }

  /**
   * Once the window holds `maxRequestsPerMinute` instants the check refuses with the
   * per-minute reason; when the clock has moved so far that the oldest of them is 60
   * seconds old, that ceiling passes again.
   */
  lemma PerMinuteAdmissionResumes(l: Limits, c: Counters, today: Date, now: Instant, later: Instant)
    requires |Recent(c.timestamps, now - WindowSeconds)| == l.maxRequestsPerMinute
    requires now <= later
    requires Recent(c.timestamps, now - WindowSeconds) != []
    requires Oldest(Recent(c.timestamps, now - WindowSeconds)) <= later - WindowSeconds
    ensures Check(l, c, today, now).0 == Some(PerMinuteExceeded(l.maxRequestsPerMinute))
    ensures Check(l, c, today, later).0 != Some(PerMinuteExceeded(l.maxRequestsPerMinute))
  {
    WindowShrinks(c.timestamps, now, later);
  }

  /**
   * The cost `record_request` books for `tokens` tokens: 70% priced as input at
   * $0.15 per million, 30% as output at $0.60 per million, each share truncated to a
   * whole number of tokens first. The configured `costPerToken` plays no part. For a
   * non-negative count it is never negative, never more than the untruncated price,
   * and less than that by under $0.75 per million.
   */
  function EstimatedCost(tokens: int): (cost: real)
    ensures tokens >= 0 ==> 0.0 <= cost <= tokens as real * 0.285 / 1000000.0
    ensures tokens >= 0 ==> cost > (tokens as real * 0.285 - 0.75) / 1000000.0
  {
    var inputTokens := Trunc(tokens as real * 0.7);
    var outputTokens := Trunc(tokens as real * 0.3);
    (inputTokens as real / 1000000.0) * 0.15 + (outputTokens as real / 1000000.0) * 0.60
  }

  /**
   * `record_request`: after the day check, exactly one instant is appended, today's
   * request count grows by exactly one and today's cost by `EstimatedCost(tokens)`;
   * every other day keeps its count and cost.
   */
  function AfterRecord(c: Counters, today: Date, at: Instant, tokens: int): (r: Counters)
    ensures r.timestamps == c.timestamps + [at]
    ensures r.lastResetDate == today
    ensures CountOn(r.dailyRequests, today) == CountOn(AfterReset(c, today).dailyRequests, today) + 1
    ensures CostOn(r.dailyCosts, today) == CostOn(AfterReset(c, today).dailyCosts, today) + EstimatedCost(tokens)
    ensures forall d :: d != today ==> CountOn(r.dailyRequests, d) == CountOn(AfterReset(c, today).dailyRequests, d)
    ensures forall d :: d != today ==> CostOn(r.dailyCosts, d) == CostOn(AfterReset(c, today).dailyCosts, d)
    ensures r.dailyRequests.Keys == AfterReset(c, today).dailyRequests.Keys + {today}
    ensures r.dailyCosts.Keys == AfterReset(c, today).dailyCosts.Keys + {today}
  {
    var c1 := AfterReset(c, today);
    c1.(timestamps := c1.timestamps + [at],
        dailyRequests := c1.dailyRequests[today := CountOn(c1.dailyRequests, today) + 1],
        dailyCosts := c1.dailyCosts[today := CostOn(c1.dailyCosts, today) + EstimatedCost(tokens)])
  }

  /** Recording on the same day never lowers that day's count or, for a non-negative token count, its cost. */
  lemma DayCountersNeverDecrease(c: Counters, at: Instant, tokens: int)
    requires tokens >= 0
    ensures var r := AfterRecord(c, c.lastResetDate, at, tokens);
      && CountOn(r.dailyRequests, c.lastResetDate) == CountOn(c.dailyRequests, c.lastResetDate) + 1
      && CostOn(r.dailyCosts, c.lastResetDate) >= CostOn(c.dailyCosts, c.lastResetDate)
  {
  }

  /** The oldest instant of a non-empty window. */
  function Oldest(ts: seq<Instant>): (m: Instant)
    requires ts != []
    ensures m in ts && forall t :: t in ts ==> m <= t
  {
    if |ts| == 1 then ts[0]
    else
      var rest := Oldest(ts[1..]);
      assert forall t :: t in ts ==> t == ts[0] || t in ts[1..];
      if ts[0] <= rest then ts[0] else rest
  }

  /**
   * The sleep `wait_if_needed` computes on the cleaned window: none unless the window
   * is full, otherwise `60 - (now - oldest) + 1` seconds when that is positive.
   */
  function WaitFor(l: Limits, ts: seq<Instant>, now: Instant): (w: real)
    ensures w >= 0.0
    ensures |ts| < l.maxRequestsPerMinute || ts == [] ==> w == 0.0
  {
    if |ts| >= l.maxRequestsPerMinute && ts != [] then
      var wait := WindowSeconds - (now - Oldest(ts)) + 1.0;
      if wait > 0.0 then wait else 0.0
    else 0.0
  }

  /**
   * On a full window that was cleaned at `now`, the wait is always more than one
   * second, and once it has elapsed the oldest instant has left the window.
   */
  lemma WaitReopensWindow(l: Limits, c: Counters, now: Instant)
    requires var ts := Recent(c.timestamps, now - WindowSeconds); |ts| >= l.maxRequestsPerMinute && ts != []
    ensures var ts := Recent(c.timestamps, now - WindowSeconds);
      var w := WaitFor(l, ts, now);
      && w > 1.0
      && w == WindowSeconds - (now - Oldest(ts)) + 1.0
      && |Recent(ts, now + w - WindowSeconds)| < |ts|
  {
    var ts := Recent(c.timestamps, now - WindowSeconds);
    var w := WaitFor(l, ts, now);
    RecentDrops(ts, now + w - WindowSeconds, Oldest(ts));
  }

  /** The figures `get_stats` reports on reset counters (the source's rounding to four places is not modelled). */
  datatype Stats = Stats(
    requestsLastMinute: int,
    maxRequestsPerMinute: int,
    requestsToday: int,
    maxRequestsPerDay: int,
    costToday: real,
    maxDailyCost: real,
    remainingDailyBudget: real)

  /** `get_stats` on counters already reset for `today`; the window is reported as it stands, uncleaned. */
  function StatsOf(l: Limits, c: Counters, today: Date): (s: Stats)
    ensures s.requestsLastMinute == |c.timestamps|
    ensures s.requestsToday == CountOn(c.dailyRequests, today)
    ensures s.costToday == CostOn(c.dailyCosts, today)
    ensures s.remainingDailyBudget == l.maxDailyCost - s.costToday
    ensures s.maxRequestsPerMinute == l.maxRequestsPerMinute && s.maxRequestsPerDay == l.maxRequestsPerDay
    ensures s.maxDailyCost == l.maxDailyCost
  {
    var cost := CostOn(c.dailyCosts, today);
    Stats(|c.timestamps|, l.maxRequestsPerMinute, CountOn(c.dailyRequests, today),
          l.maxRequestsPerDay, cost, l.maxDailyCost, l.maxDailyCost - cost)
  }

  /**
   * The lookup `self.daily_requests[today]` of rate_limiter.py:98 as written, once
   * `_load_state` or `_reset_if_new_day` has replaced the `defaultdict` by a plain
   * dictionary: a missing day raises `KeyError` (here `Failure`).
   */
  function VerdictAsWritten(l: Limits, c: Counters, today: Date): (r: Result<Option<Refusal>, string>)
    ensures |c.timestamps| < l.maxRequestsPerMinute && today !in c.dailyRequests ==> r.Failure?
    ensures today in c.dailyRequests && today in c.dailyCosts ==> r == Success(Verdict(l, c, today))
  {
    if |c.timestamps| >= l.maxRequestsPerMinute then Success(Some(PerMinuteExceeded(l.maxRequestsPerMinute)))
    else if today !in c.dailyRequests then Failure("KeyError")
    else if c.dailyRequests[today] >= l.maxRequestsPerDay then Success(Some(DailyRequestsExceeded(l.maxRequestsPerDay)))
    else if today !in c.dailyCosts then Failure("KeyError")
    else if c.dailyCosts[today] >= l.maxDailyCost then Success(Some(DailyCostExceeded(l.maxDailyCost)))
    else Success(None)
  }

  /**
   * The first check on a new day after a rollover: the day's entry does not exist
   * yet, so the code as written raises `KeyError` where the intended lookup admits.
   */
  lemma NewDayCheckRaises()
    ensures var l := Limits(60, 1000, 10.0, 0.00015);
      var c := AfterClean(AfterReset(Counters([], map[0 := 3], map[0 := 0.01], 0), 1), 100.0);
      && VerdictAsWritten(l, c, 1).Failure?
      && Verdict(l, c, 1) == None
  {
  }

  class RateLimiter {
    const limits: Limits
    var requestsTimestamps: seq<Instant>
    var dailyRequests: map<Date, int>
    var dailyCosts: map<Date, real>
    var lastResetDate: Date

    /** The fields as one value. */
    function State(): Counters
      reads this
    {
      Counters(requestsTimestamps, dailyRequests, dailyCosts, lastResetDate)
    }

    /**
     * Starts with an empty window, the given limits (the per-1k-token rate divided by
     * 1000), `today` as the last reset date, and the saved dictionaries when a state
     * file was found, empty ones otherwise.
     */
    constructor (maxRequestsPerMinute: int, maxRequestsPerDay: int, maxDailyCost: real,
                 costPer1kTokens: real, today: Date, saved: Option<SavedState>)
      ensures limits == Limits(maxRequestsPerMinute, maxRequestsPerDay, maxDailyCost, costPer1kTokens / 1000.0)
      ensures requestsTimestamps == [] && lastResetDate == today
      ensures saved.Some? ==> dailyRequests == saved.value.dailyRequests && dailyCosts == saved.value.dailyCosts
      ensures saved.None? ==> dailyRequests == map[] && dailyCosts == map[]
    {
      limits := Limits(maxRequestsPerMinute, maxRequestsPerDay, maxDailyCost, costPer1kTokens / 1000.0);
      requestsTimestamps := [];
      lastResetDate := today;
      if saved.Some? {
        dailyRequests := saved.value.dailyRequests;
        dailyCosts := saved.value.dailyCosts;
      } else {
        dailyRequests := map[];
        dailyCosts := map[];
      }
    }

    /** What `_save_state` writes. */
    function Saved(): SavedState
      reads this
    {
      SavedState(dailyRequests, dailyCosts)
    }

    method ResetIfNewDay(today: Date)
      modifies this
      ensures State() == AfterReset(old(State()), today)
    {
      if today != lastResetDate {
        lastResetDate := today;
        var cutoff := today - RequestRetentionDays;
        dailyRequests := Since(dailyRequests, cutoff);
        dailyCosts := Since(dailyCosts, cutoff);
      }
    }

    method CleanOldTimestamps(now: Instant)
      modifies this
      ensures State() == AfterClean(old(State()), now)
    {
      var oneMinuteAgo := now - WindowSeconds;
      requestsTimestamps := Recent(requestsTimestamps, oneMinuteAgo);
    }

    /** `check_rate_limit`: `allowed` exactly when no ceiling failed; the counters are reset and cleaned either way. */
    method CheckRateLimit(today: Date, now: Instant) returns (allowed: bool, refusal: Option<Refusal>)
      modifies this
      ensures (refusal, State()) == Check(limits, old(State()), today, now)
      ensures allowed <==> refusal == None
    {
      ResetIfNewDay(today);
      CleanOldTimestamps(now);
      if |requestsTimestamps| >= limits.maxRequestsPerMinute {
        return false, Some(PerMinuteExceeded(limits.maxRequestsPerMinute));
      }
      if CountOn(dailyRequests, today) >= limits.maxRequestsPerDay {
        return false, Some(DailyRequestsExceeded(limits.maxRequestsPerDay));
      }
      if CostOn(dailyCosts, today) >= limits.maxDailyCost {
        return false, Some(DailyCostExceeded(limits.maxDailyCost));
      }
      return true, None;
    }

    method RecordRequest(today: Date, now: Instant, estimatedTokens: int)
      modifies this
      ensures State() == AfterRecord(old(State()), today, now, estimatedTokens)
    {
      ResetIfNewDay(today);
      requestsTimestamps := requestsTimestamps + [now];
      dailyRequests := dailyRequests[today := CountOn(dailyRequests, today) + 1];
      var estimatedCost := EstimatedCost(estimatedTokens);
      dailyCosts := dailyCosts[today := CostOn(dailyCosts, today) + estimatedCost];
    }

    /** `wait_if_needed`: cleans the window and returns the number of seconds it would sleep. */
    method WaitIfNeeded(now: Instant) returns (wait: real)
      modifies this
      ensures State() == AfterClean(old(State()), now)
      ensures wait == WaitFor(limits, requestsTimestamps, now)
    {
      CleanOldTimestamps(now);
      wait := 0.0;
      if |requestsTimestamps| >= limits.maxRequestsPerMinute {
        if requestsTimestamps != [] {
          var oldest := Oldest(requestsTimestamps);
          var waitTime := WindowSeconds - (now - oldest) + 1.0;
          if waitTime > 0.0 {
            wait := waitTime;
          }
        }
      }
    }

    method GetStats(today: Date) returns (stats: Stats)
      modifies this
      ensures State() == AfterReset(old(State()), today)
      ensures stats == StatsOf(limits, State(), today)
    {
      ResetIfNewDay(today);
      var cost := CostOn(dailyCosts, today);
      stats := Stats(|requestsTimestamps|, limits.maxRequestsPerMinute, CountOn(dailyRequests, today),
                     limits.maxRequestsPerDay, cost, limits.maxDailyCost, limits.maxDailyCost - cost);
    }
  }

  /** A non-empty set of days has a member. */
  lemma HasMember(s: set<Date>)
    requires s != {}
    ensures exists x :: x in s
  {
    if forall y :: y !in s { assert false; }
  }

  /** The earliest day of a non-empty set of days, found by taking days out one at a time. */
  ghost function MinOf(s: set<Date>): (k: Date)
    requires s != {}
    ensures k in s && forall j :: j in s ==> k <= j
    decreases |s|
  {
    HasMember(s);
    var x :| x in s;
    if s == {x} then x
    else
      var rest := s - {x};
      assert |rest| == |s| - 1;
      var m := MinOf(rest);
      assert forall j :: j in s ==> j == x || j in rest;
      if x < m then x else m
  }

  /** The earliest day of a non-empty set of days. */
  function Earliest(s: set<Date>): (k: Date)
    requires s != {}
    ensures k in s && forall j :: j in s ==> k <= j
  {
    assert MinOf(s) in s && forall j :: j in s ==> MinOf(s) <= j;
    var k :| k in s && forall j :: j in s ==> k <= j;
    k
  }

  /** The sum of the values of a cost dictionary (`sum(daily_costs.values())`). */
  function SumCosts(m: map<Date, real>): (r: real)
    ensures (forall d :: d in m ==> m[d] == 0.0) ==> r == 0.0
    decreases |m|
  {
    if m == map[] then 0.0
    else
      var d := Earliest(m.Keys);
      assert |m - {d}| == |m| - 1;
      m[d] + SumCosts(m - {d})
  }

  /** The sum does not depend on which entry is taken first: any entry can be split off. */
  lemma {:induction false} SumCostsSplit(m: map<Date, real>, d: Date)
    requires d in m
    ensures SumCosts(m) == m[d] + SumCosts(m - {d})
    decreases |m|
  {
    var k := Earliest(m.Keys);
    if k != d {
      assert |m - {k}| == |m| - 1;
      assert |m - {d}| == |m| - 1;
      SumCostsSplit(m - {k}, d);
      SumCostsSplit(m - {d}, k);
      assert m - {k} - {d} == m - {d} - {k};
    }
  }

  /** `add_cost` on a dictionary: today's entry, 0.0 when absent, grows by `amount`; no other entry changes. */
  function AddCostTo(m: map<Date, real>, today: Date, amount: real): (r: map<Date, real>)
    ensures r.Keys == m.Keys + {today}
    ensures CostOn(r, today) == CostOn(m, today) + amount
    ensures forall d :: d in m && d != today ==> r[d] == m[d]
  {
    m[today := CostOn(m, today) + amount]
  }

  /**
   * `add_cost` as written: a tracker whose costs were loaded from its file holds a
   * plain dictionary, so a day without an entry raises `KeyError` (here `Failure`);
   * the fresh tracker's `defaultdict` starts the day at 0.0.
   */
  function AddCostAsWritten(m: map<Date, real>, today: Date, amount: real, loaded: bool): (r: Result<map<Date, real>, string>)
    ensures loaded && today !in m ==> r.Failure?
    ensures !loaded || today in m ==> r == Success(AddCostTo(m, today, amount))
  {
    if loaded && today !in m then Failure("KeyError")
    else Success(m[today := CostOn(m, today) + amount])
  }

  /** `get_total_cost`: the sum of exactly the entries dated `today - days` or later. */
  function TotalSince(m: map<Date, real>, today: Date, days: int): (r: real)
    ensures (forall d :: d in m ==> d < today - days) ==> r == 0.0
    ensures NonNegativeCosts(m) ==> r >= 0.0
  {
    var window := Since(m, today - days);
    assert NonNegativeCosts(m) ==> NonNegativeCosts(window);
    var total := SumCosts(window);
    if NonNegativeCosts(window) then SumCostsNonNegative(window); total else total
  }

  /** Adding `amount` today raises every total that includes today by exactly `amount`. */
  lemma {:induction false} TotalAfterAddCost(m: map<Date, real>, today: Date, amount: real, days: int)
    requires days >= 0
    ensures TotalSince(AddCostTo(m, today, amount), today, days) == TotalSince(m, today, days) + amount
  {
    var cutoff := today - days;
    var before := Since(m, cutoff);
    var after := Since(AddCostTo(m, today, amount), cutoff);
    SumCostsSplit(after, today);
    assert after - {today} == before - {today};
    if today in before {
      SumCostsSplit(before, today);
    } else {
      assert before - {today} == before;
    }
  }

  /** Entries dated before the cutoff do not contribute to a total. */
  lemma {:induction false} TotalIgnoresOlder(m: map<Date, real>, today: Date, days: int, d: Date, v: real)
    requires d < today - days
    ensures TotalSince(m[d := v], today, days) == TotalSince(m, today, days)
  {
    assert Since(m[d := v], today - days) == Since(m, today - days);
  }

  /** A cost dictionary whose entries are all non-negative, as `add_cost` with non-negative amounts keeps it. */
  predicate NonNegativeCosts(m: map<Date, real>) {
    forall d :: d in m ==> m[d] >= 0.0
  }

  /** Non-negative costs have a non-negative sum. */
  lemma {:induction false} SumCostsNonNegative(m: map<Date, real>)
    requires NonNegativeCosts(m)
    ensures SumCosts(m) >= 0.0
    decreases |m|
  {
    if m != map[] {
      var d := Earliest(m.Keys);
      assert |m - {d}| == |m| - 1;
      SumCostsNonNegative(m - {d});
    }
  }

  /** Dropping entries of non-negative costs can only lower their sum. */
  lemma {:induction false} SumCostsSubmap(small: map<Date, real>, big: map<Date, real>)
    requires forall d :: d in small ==> d in big && small[d] == big[d]
    requires NonNegativeCosts(big)
    ensures SumCosts(small) <= SumCosts(big)
    decreases |small|
  {
    if small == map[] {
      SumCostsNonNegative(big);
    } else {
      var d := Earliest(small.Keys);
      assert |small - {d}| == |small| - 1;
      SumCostsSplit(big, d);
      SumCostsSubmap(small - {d}, big - {d});
    }
  }

  /** The sum of a single entry is that entry. */
  lemma SumCostsSingle(d: Date, v: real)
    ensures SumCosts(map[d := v]) == v
  {
    var m := map[d := v];
    assert m.Keys == {d};
    assert m - {d} == map[];
  }

  /**
   * With non-negative entries a total is never negative, includes today's entry when
   * the window reaches today, and a longer window never totals less than a shorter one.
   */
  lemma TotalsNested(m: map<Date, real>, today: Date, shorter: int, longer: int)
    requires NonNegativeCosts(m) && 0 <= shorter <= longer
    ensures 0.0 <= CostOn(m, today) <= TotalSince(m, today, shorter) <= TotalSince(m, today, longer)
  {
    var near, far := Since(m, today - shorter), Since(m, today - longer);
    SumCostsSubmap(near, far);
    if today in m {
      SumCostsSingle(today, m[today]);
      SumCostsSubmap(map[today := m[today]], near);
    } else {
      SumCostsSubmap(map[], near);
    }
  }

  /** Cost figures of the cost tracker's `get_stats` (rounding not modelled). */
  datatype CostStats = CostStats(costToday: real, costThisWeek: real, costThisMonth: real)

  class CostTracker {
    var dailyCosts: map<Date, real>
    var lastResetDate: Date

    /** Starts from the saved cost file when there is one, from no entries otherwise. */
    constructor (today: Date, saved: Option<map<Date, real>>)
      ensures dailyCosts == (if saved.Some? then saved.value else map[])
      ensures lastResetDate == today
    {
      dailyCosts := if saved.Some? then saved.value else map[];
      lastResetDate := today;
    }

    /** `add_cost`: only today's entry changes, by exactly `amount`. */
    method AddCost(today: Date, amount: real)
      modifies this
      ensures dailyCosts == AddCostTo(old(dailyCosts), today, amount)
      ensures lastResetDate == old(lastResetDate)
    {
      dailyCosts := dailyCosts[today := CostOn(dailyCosts, today) + amount];
    }

    /** What `_save_costs` writes: the entries of the last thirty days. */
    function SavedCosts(today: Date): (saved: map<Date, real>)
      reads this
      ensures forall d :: d in saved <==> d in dailyCosts && d >= today - CostRetentionDays
      ensures forall d :: d in saved ==> saved[d] == dailyCosts[d]
    {
      Since(dailyCosts, today - CostRetentionDays)
    }

    /** `get_daily_cost`: the day's entry, 0.0 when there is none; the read adds no entry. */
    function DailyCost(date: Date): (c: real)
      reads this
      ensures date in dailyCosts ==> c == dailyCosts[date]
      ensures date !in dailyCosts ==> c == 0.0
    {
      CostOn(dailyCosts, date)
    }

    /** `get_total_cost(days)`: with non-negative entries, at least today's cost and never negative. */
    function TotalCost(today: Date, days: int): (t: real)
      reads this
      ensures NonNegativeCosts(dailyCosts) && days >= 0 ==> 0.0 <= DailyCost(today) <= t
    {
      var t := TotalSince(dailyCosts, today, days);
      if NonNegativeCosts(dailyCosts) && days >= 0 then TotalsNested(dailyCosts, today, days, days); t else t
    }

    /** `get_stats`: today's cost, the week's and the month's, nested when every entry is non-negative. */
    function Stats(today: Date): (s: CostStats)
      reads this
      ensures s.costToday == DailyCost(today)
      ensures s.costThisWeek == TotalSince(dailyCosts, today, 7) && s.costThisMonth == TotalSince(dailyCosts, today, 30)
      ensures NonNegativeCosts(dailyCosts) ==> 0.0 <= s.costToday <= s.costThisWeek <= s.costThisMonth
    {
      var s := CostStats(DailyCost(today), TotalCost(today, 7), TotalCost(today, 30));
      if NonNegativeCosts(dailyCosts) then TotalsNested(dailyCosts, today, 7, 30); s else s
    }
  }
}
