/**
 * The sentiment scorer in front of the costed language-model service: a cache keyed
 * by ticker and the first 200 characters of the text, the budget gateway consulted
 * before every call, the clean-up of the reply (code fences, a brace-delimited
 * fallback, default fields), the batching of many texts with a refusal fill, and the
 * aggregation of many records into one summary.
 *
 * The service call is the argument `call` (what the service answered, or the
 * exception it raised); `json` stands for `json.loads` followed by the reading of
 * the four fields. The md5 digest of the key string is modelled by the key string
 * itself, so two keys collide exactly when their strings are equal.
 */
module SentimentAnalysis {
  import opened Wrappers
  import opened Text
  import opened RateLimiting
  import opened Numbers

  /** A sentiment record with exactly the four keys the analyzer returns. */
  datatype Sentiment = Sentiment(sentiment: string, score: real, reasoning: string, confidence: real)

  /** The four fields of a decoded reply, each present or absent. */
  datatype RawRecord = RawRecord(
    sentiment: Option<string>,
    score: Option<real>,
    reasoning: Option<string>,
    confidence: Option<real>)

  /** What decoding a piece of reply text gives. */
  datatype Parsed =
    | Object(record: RawRecord)
      /** `json.JSONDecodeError`, with its message. */
    | Invalid(message: string)
      /** Decoded, but reading the fields raises (not an object, or a number `float` refuses). */
    | Unusable(message: string)

  /** What the service call gives: the reply and its token usage, or an exception. */
  datatype CallOutcome =
    | Replied(content: string, promptTokens: Option<int>, completionTokens: Option<int>)
    | CallFailed(message: string)

  /** Characters of the text that take part in the cache key. */
  const KeyPrefixLength: nat := 200
  /** Token counts assumed when the usage report lacks them. */
  const DefaultPromptTokens: int := 500
  const DefaultCompletionTokens: int := 100
  /** Budget configuration of the analyzer's rate limiter: 60 per minute, 1000 per day. */
  const PerMinuteCeiling: int := 60
  const PerDayCeiling: int := 1000
  /** `cost_per_1k_input * 1000` handed to the rate limiter as its per-1k-token rate. */
  const CostPer1kTokens: real := 0.15

  /** `ticker or ''`: an absent and an empty ticker both give the empty string. */
  function TickerPart(ticker: Option<string>): string {
    if ticker.Some? then ticker.value else ""
  }

  /** `text[:200]`. */
  function KeyPrefix(text: string): (p: string)
    ensures |p| == if |text| < KeyPrefixLength then |text| else KeyPrefixLength
    ensures p == text[..|p|]
  {
    if |text| < KeyPrefixLength then text else text[..KeyPrefixLength]
  }

  /**
   * The string `_get_cache_key` digests: the ticker part and a colon, then the
   * text's first 200 characters and nothing else of it.
   */
  function CacheKey(text: string, ticker: Option<string>): (k: string)
    ensures var head := TickerPart(ticker) + ":";
      && |head| <= |k| <= |head| + KeyPrefixLength
      && |k| - |head| <= |text|
      && k == head + text[..|k| - |head|]
  {
    TickerPart(ticker) + ":" + KeyPrefix(text)
  }

  /**
   * Under one ticker, two texts share a cache entry exactly when their first 200
   * characters agree: the rest of a long text plays no part.
   */
  lemma SameKeyIffSamePrefix(a: string, b: string, ticker: Option<string>)
    ensures CacheKey(a, ticker) == CacheKey(b, ticker) <==> KeyPrefix(a) == KeyPrefix(b)
  {
    var head := TickerPart(ticker) + ":";
    if CacheKey(a, ticker) == CacheKey(b, ticker) {
      assert KeyPrefix(a) == CacheKey(a, ticker)[|head|..];
      assert KeyPrefix(b) == CacheKey(b, ticker)[|head|..];
    }
  }

  const Fence: string := "```"

  /** No code fence anywhere in `t`. */
  predicate FenceFree(t: string) {
    forall i :: 0 <= i < |t| ==> !OccursAt(t, i, Fence)
  }

  /**
   * The reply clean-up before decoding: strip it; when it then starts with a code
   * fence, keep the text between the first two fences, drop a leading `json`, and
   * strip again. An unfenced reply is only stripped.
   */
  function StripFences(reply: string): (r: string)
    ensures !StartsWith(Strip(reply), Fence) ==> r == Strip(reply)
    ensures Trimmed(r)
  {
    var content := Strip(reply);
    if StartsWith(content, Fence) then Strip(FencedBody(content)) else content
  }

  /** The text between the opening fence of `content` and the next one, less a leading `json`. */
  function FencedBody(content: string): string
    requires StartsWith(content, Fence)
  {
    var inside := Before(content[3..], Fence);
    if StartsWith(inside, "json") then inside[4..] else inside
  }

  /** A slice of a fence-free text is fence-free. */
  lemma FenceFreePiece(s: string, off: int, t: string)
    requires FenceFree(s) && 0 <= off <= |s| - |t| && t == s[off..][..|t|]
    ensures FenceFree(t)
  {
    OccursInPiece(s, off, t, Fence);
  }

  /** A fenced reply leaves no fence behind. */
  lemma FencedReplyIsFenceFree(reply: string)
    requires StartsWith(Strip(reply), Fence)
    ensures FenceFree(StripFences(reply))
  {
    var inside := Before(Strip(reply)[3..], Fence);
    BeforeIsFenceFree(Strip(reply)[3..]);
    var off := if StartsWith(inside, "json") then 4 else 0;
    var body := inside[off..];
    assert body[..|body|] == body;
    FenceFreePiece(inside, off, body);
    StripIsFenceFree(body);
  }

  /** The text before the first fence holds no fence. */
  lemma BeforeIsFenceFree(t: string)
    ensures FenceFree(Before(t, Fence))
  {
    var inside := Before(t, Fence);
    OccursInPiece(t, 0, inside, Fence);
  }

  /** Stripping a fence-free text leaves it fence-free. */
  lemma StripIsFenceFree(t: string)
    requires FenceFree(t)
    ensures FenceFree(Strip(t))
  {
    var r := Strip(t);
    var k :| 0 <= k <= |t| - |r| && r == t[k..][..|r|];
    FenceFreePiece(t, k, r);
  }

  /** A text whose ends are not white space is left alone by `Strip`. */
  lemma StripKeeps(s: string)
    requires Trimmed(s)
    ensures Strip(s) == s
  {
    assert TrimStart(s) == s;
    assert TrimEnd(s) == s;
  }

  /** A reply fenced as a `json` block gives back exactly its stripped body. */
  lemma FencedBlockRoundTrip(body: string)
    requires forall i :: 0 <= i < |body| ==> body[i] != '`'
    ensures StripFences("```json" + body + "```") == Strip(body)
  {
    var reply := "```json" + body + "```";
    StripKeeps(reply);
    assert StartsWith(reply, Fence) by {
      assert reply[..3] == Fence;
    }
    ClosingFenceFound(body, reply[3..]);
    var inside := "json" + body;
    assert StartsWith(inside, "json");
    assert inside[4..] == body;
  }

  /** After the opening fence, the text up to the closing fence is the tag and the body. */
  lemma ClosingFenceFound(body: string, tail: string)
    requires forall i :: 0 <= i < |body| ==> body[i] != '`'
    requires tail == "json" + body + "```"
    ensures Before(tail, Fence) == "json" + body
  {
    var p := 4 + |body|;
    assert OccursAt(tail, p, Fence) by {
      assert tail[p..p + 3] == "```";
    }
    forall i | 0 <= i < p
      ensures tail[i] != '`'
    {
      if i >= 4 {
        assert tail[i] == body[i - 4];
      }
    }
    NoOccurrenceBefore(tail, Fence, p);
    BeforeFirst(tail, Fence, p);
    assert tail[..p] == "json" + body;
  }

  /** The record a reply without any JSON becomes before the defaults are applied. */
  const Unparsed: RawRecord := RawRecord(Some("neutral"), Some(0.0), Some("Unable to parse sentiment"), Some(0.0))

  /** The record with exactly the four keys, with "neutral", 0.0, "" and 0.5 standing in for absent fields. */
  function Normalize(raw: RawRecord): (s: Sentiment)
    ensures s.sentiment == (if raw.sentiment.Some? then raw.sentiment.value else "neutral")
    ensures s.score == (if raw.score.Some? then raw.score.value else 0.0)
    ensures s.reasoning == (if raw.reasoning.Some? then raw.reasoning.value else "")
    ensures s.confidence == (if raw.confidence.Some? then raw.confidence.value else 0.5)
  {
    Sentiment(raw.sentiment.GetOr("neutral"), raw.score.GetOr(0.0), raw.reasoning.GetOr(""), raw.confidence.GetOr(0.5))
  }

  /** A record as the decoded reply that carries all four of its fields. */
  function Lift(s: Sentiment): RawRecord {
    RawRecord(Some(s.sentiment), Some(s.score), Some(s.reasoning), Some(s.confidence))
  }

  /**
   * Present fields pass through untouched, whatever their range (no clamping), and
   * absent ones take the defaults.
   */
  lemma NormalizeKeepsFields(s: Sentiment)
    ensures Normalize(Lift(s)) == s
    ensures Normalize(RawRecord(None, None, None, None)) == Sentiment("neutral", 0.0, "", 0.5)
  {
  }

  /** The first position of `c` in `s`. */
  function FirstIndex(s: string, c: char): (r: Option<nat>)
    ensures r.Some? ==> r.value < |s| && s[r.value] == c && forall i :: 0 <= i < r.value ==> s[i] != c
    ensures r.None? ==> forall i :: 0 <= i < |s| ==> s[i] != c
  {
    if s == [] then None
    else if s[0] == c then Some(0)
    else
      match FirstIndex(s[1..], c)
      case Some(i) => Some(i + 1)
      case None => None
  }

  /** The last position of `c` in `s`. */
  function LastIndex(s: string, c: char): (r: Option<nat>)
    ensures r.Some? ==> r.value < |s| && s[r.value] == c && forall i :: r.value < i < |s| ==> s[i] != c
    ensures r.None? ==> forall i :: 0 <= i < |s| ==> s[i] != c
  {
    if s == [] then None
    else if s[|s| - 1] == c then Some(|s| - 1)
    else LastIndex(s[..|s| - 1], c)
  }

  /**
   * The match of `\{.*\}` with `.` matching newlines: from the first `{` to the last
   * `}` when a `}` follows that `{`, and no match otherwise.
   */
  function BraceSpan(s: string): (r: Option<string>)
    ensures r.Some? <==> exists i, j :: 0 <= i < j < |s| && s[i] == '{' && s[j] == '}'
    ensures r.Some? ==> |r.value| >= 2 && r.value[0] == '{' && r.value[|r.value| - 1] == '}'
  {
    match (FirstIndex(s, '{'), LastIndex(s, '}'))
    case (Some(i), Some(j)) =>
      if i < j then Some(s[i..j + 1]) else None
    case _ => None
  }

  /**
   * Decoding the cleaned reply: a direct decode; on a decode error the brace span,
   * whose decode error is no longer caught; the fixed "Unable to parse sentiment"
   * record when there is no span. `Failure` carries the message of the exception.
   */
  function Interpret(json: string -> Parsed, reply: string): (r: Result<Sentiment, string>)
    ensures var content := StripFences(reply);
      json(content).Object? ==> r == Success(Normalize(json(content).record))
    ensures var content := StripFences(reply);
      json(content).Unusable? ==> r == Failure(json(content).message)
    ensures var content := StripFences(reply);
      json(content).Invalid? && BraceSpan(content).None? ==> r == Success(Normalize(Unparsed))
    ensures var content := StripFences(reply);
      json(content).Invalid? && BraceSpan(content).Some? ==>
        (r.Success? <==> json(BraceSpan(content).value).Object?)
  {
    var content := StripFences(reply);
    match json(content)
    case Object(raw) => Success(Normalize(raw))
    case Unusable(message) => Failure(message)
    case Invalid(_) =>
      match BraceSpan(content)
      case None => Success(Normalize(Unparsed))
      case Some(span) =>
        match json(span)
        case Object(raw) => Success(Normalize(raw))
        case Unusable(message) => Failure(message)
        case Invalid(message) => Failure(message)
  }

  /** The decoding of a cleaned-up reply: a record, or the message of the exception it raised. */
  type Decoder = string -> Result<Sentiment, string>

  /** The decoder built on `json`: `Interpret` with it. */
  function Decoding(json: string -> Parsed): Decoder {
    (reply: string) => Interpret(json, reply)
  }

  /** The neutral record returned when the gateway refuses. */
  function RefusedRecord(r: Refusal): Sentiment {
    Sentiment("neutral", 0.0, "Rate limit: " + Message(r), 0.0)
  }

  /** The neutral record returned when an exception escapes the call or the decoding. */
  function ErrorRecord(message: string): Sentiment {
    Sentiment("neutral", 0.0, "Error: " + message, 0.0)
  }

  /** The neutral record filling a batch after a refusal. */
  const BatchRefused: Sentiment := Sentiment("neutral", 0.0, "Rate limit reached", 0.0)

  /** The price of a reply: $0.15 per million prompt tokens and $0.60 per million completion tokens. */
  function ReplyCost(promptTokens: int, completionTokens: int): (cost: real)
    ensures promptTokens >= 0 && completionTokens >= 0 ==> cost >= 0.0
  {
    (promptTokens as real / 1000000.0) * 0.15 + (completionTokens as real / 1000000.0) * 0.60
  }

  /** The analyzer's mutable state: its cache, its rate limiter's counters and its cost tracker's entries. */
  datatype AnalyzerState = AnalyzerState(cache: map<string, Sentiment>, limiter: Counters, costs: map<Date, real>)

  /**
   * `analyze_sentiment` as a transition: a cache hit first; otherwise the gateway
   * check, the gateway's wait (a clean-up of the window), the call; an answered call
   * is recorded with the gateway and the cost tracker before its reply is decoded,
   * and only a decoded reply is cached.
   */
  function Analyze(l: Limits, s: AnalyzerState, text: string, ticker: Option<string>, today: Date,
                   now: Instant, call: CallOutcome, decode: Decoder): (out: (Sentiment, AnalyzerState))
    ensures CacheKey(text, ticker) in s.cache ==> out == (s.cache[CacheKey(text, ticker)], s)
    ensures out.1.cache == s.cache || out.1.cache == s.cache[CacheKey(text, ticker) := out.0]
    ensures out.1.costs != s.costs ==> call.Replied?
  {
    var key := CacheKey(text, ticker);
    if key in s.cache then (s.cache[key], s)
    else
      var (verdict, checked) := Check(l, s.limiter, today, now);
      if verdict.Some? then (RefusedRecord(verdict.value), s.(limiter := checked))
      else Admitted(s.(limiter := AfterClean(checked, now)), key, today, now, call, decode)
  }

  /**
   * The admitted part, from the state the gateway's check and wait left: an exception
   * of the call changes nothing more; an answer is booked with the gateway and the
   * cost tracker, and cached under `key` only when it decodes.
   */
  function Admitted(s: AnalyzerState, key: string, today: Date, now: Instant, call: CallOutcome,
                    decode: Decoder): (out: (Sentiment, AnalyzerState))
    ensures call.CallFailed? ==> out == (ErrorRecord(call.message), s)
    ensures call.Replied? ==>
      var inputTokens := call.promptTokens.GetOr(DefaultPromptTokens);
      var outputTokens := call.completionTokens.GetOr(DefaultCompletionTokens);
      && out.1.limiter == AfterRecord(s.limiter, today, now, inputTokens + outputTokens)
      && out.1.costs == AddCostTo(s.costs, today, ReplyCost(inputTokens, outputTokens))
    ensures call.Replied? && decode(call.content).Success? ==>
      out.0 == decode(call.content).value && out.1.cache == s.cache[key := out.0]
    ensures call.Replied? && decode(call.content).Failure? ==>
      out.0 == ErrorRecord(decode(call.content).error) && out.1.cache == s.cache
  {
    match call
    case CallFailed(message) => (ErrorRecord(message), s)
    case Replied(content, promptTokens, completionTokens) =>
      var inputTokens := promptTokens.GetOr(DefaultPromptTokens);
      var outputTokens := completionTokens.GetOr(DefaultCompletionTokens);
      var booked := s.(limiter := AfterRecord(s.limiter, today, now, inputTokens + outputTokens),
                       costs := AddCostTo(s.costs, today, ReplyCost(inputTokens, outputTokens)));
      match decode(content)
      case Success(record) => (record, booked.(cache := s.cache[key := record]))
      case Failure(message) => (ErrorRecord(message), booked)
  }

  /**
   * The admitted part as written, with a cost tracker that `loaded` its dictionary
   * from its file: the `KeyError` of `add_cost` on a day without an entry comes after
   * the gateway has booked the call and is caught by the handler, so the reply is
   * lost as an "Error: ..." record, with the costs and the cache left as they were.
   */
  function AdmittedAsWritten(s: AnalyzerState, key: string, today: Date, now: Instant, call: CallOutcome,
                             decode: Decoder, loaded: bool): (out: (Sentiment, AnalyzerState))
    ensures !loaded || today in s.costs ==> out == Admitted(s, key, today, now, call, decode)
    ensures loaded && today !in s.costs && call.Replied? ==>
      && out.0 == ErrorRecord("KeyError")
      && out.1.cache == s.cache && out.1.costs == s.costs
      && out.1.limiter == Admitted(s, key, today, now, call, decode).1.limiter
  {
    match call
    case CallFailed(message) => (ErrorRecord(message), s)
    case Replied(content, promptTokens, completionTokens) =>
      var inputTokens := promptTokens.GetOr(DefaultPromptTokens);
      var outputTokens := completionTokens.GetOr(DefaultCompletionTokens);
      var recorded := s.(limiter := AfterRecord(s.limiter, today, now, inputTokens + outputTokens));
      match AddCostAsWritten(s.costs, today, ReplyCost(inputTokens, outputTokens), loaded)
      case Failure(message) => (ErrorRecord(message), recorded)
      case Success(costs) =>
        var booked := recorded.(costs := costs);
        match decode(content)
        case Success(record) => (record, booked.(cache := s.cache[key := record]))
        case Failure(message) => (ErrorRecord(message), booked)
  }

  /**
   * On the first reply of a day with a loaded cost tracker, a reply that decodes is
   * lost as written, while the intended `Admitted` returns and caches it, and books
   * its cost.
   */
  lemma LoadedTrackerLosesReply(s: AnalyzerState, key: string, today: Date, now: Instant, content: string,
                                promptTokens: Option<int>, completionTokens: Option<int>, decode: Decoder)
    requires today !in s.costs && decode(content).Success?
    ensures var call := Replied(content, promptTokens, completionTokens);
      var asWritten := AdmittedAsWritten(s, key, today, now, call, decode, true);
      var intended := Admitted(s, key, today, now, call, decode);
      && asWritten.0 == ErrorRecord("KeyError") && asWritten.1.cache == s.cache
      && intended.0 == decode(content).value && key in intended.1.cache
      && intended.1.cache[key] == decode(content).value
      && today in intended.1.costs
  {
  }

  /** A cache hit returns the stored record and touches neither the gateway nor the costs. */
  lemma CacheHitLeavesStateAlone(l: Limits, s: AnalyzerState, text: string, ticker: Option<string>, today: Date,
                                 now: Instant, call: CallOutcome, decode: Decoder)
    requires CacheKey(text, ticker) in s.cache
    ensures Analyze(l, s, text, ticker, today, now, call, decode) == (s.cache[CacheKey(text, ticker)], s)
  {
  }

  /**
   * A refusal gives the neutral "Rate limit: ..." record built from the first failing
   * ceiling; the cache and the costs stay as they were and no request is recorded.
   */
  lemma RefusalIsNotCached(l: Limits, s: AnalyzerState, text: string, ticker: Option<string>, today: Date,
                           now: Instant, call: CallOutcome, decode: Decoder)
    requires CacheKey(text, ticker) !in s.cache
    requires Check(l, s.limiter, today, now).0.Some?
    ensures var (r, s') := Analyze(l, s, text, ticker, today, now, call, decode);
      && r == RefusedRecord(Check(l, s.limiter, today, now).0.value)
      && r.sentiment == "neutral" && r.score == 0.0 && r.confidence == 0.0
      && s'.cache == s.cache && s'.costs == s.costs
      && s'.limiter == Check(l, s.limiter, today, now).1
  {
  }

  /**
   * The cache only grows: existing entries never change, and the only entry that can
   * appear is the text's own key, holding the returned record of a decoded reply.
   */
  lemma CacheOnlyGrowsOnSuccess(l: Limits, s: AnalyzerState, text: string, ticker: Option<string>, today: Date,
                                now: Instant, call: CallOutcome, decode: Decoder)
    ensures var (r, s') := Analyze(l, s, text, ticker, today, now, call, decode);
      var key := CacheKey(text, ticker);
      && (forall k :: k in s.cache ==> k in s'.cache && s'.cache[k] == s.cache[k])
      && s'.cache.Keys <= s.cache.Keys + {key}
      && (s'.cache != s.cache ==>
            && key !in s.cache && call.Replied?
            && decode(call.content) == Success(r)
            && s'.cache == s.cache[key := r])
  {
    var key := CacheKey(text, ticker);
    if key !in s.cache && Check(l, s.limiter, today, now).0 == None && call.Replied? {
      match decode(call.content)
      case Success(record) =>
      case Failure(message) =>
    }
  }

  /**
   * Every outcome that is neither a hit nor a decoded reply is a neutral record with
   * score and confidence 0.0 whose reasoning starts with "Rate limit: " or "Error: ",
   * and leaves the cache as it was.
   */
  lemma {:induction false} MissesAreNeutral(l: Limits, s: AnalyzerState, text: string, ticker: Option<string>, today: Date,
                                            now: Instant, call: CallOutcome, decode: Decoder)
    requires CacheKey(text, ticker) !in s.cache
    requires !(Check(l, s.limiter, today, now).0 == None && call.Replied? && decode(call.content).Success?)
    ensures var (r, s') := Analyze(l, s, text, ticker, today, now, call, decode);
      && s'.cache == s.cache
      && r.sentiment == "neutral" && r.score == 0.0 && r.confidence == 0.0
      && (StartsWith(r.reasoning, "Rate limit: ") || StartsWith(r.reasoning, "Error: "))
  {
    var (verdict, checked) := Check(l, s.limiter, today, now);
    if verdict.Some? {
      var m := Message(verdict.value);
      assert ("Rate limit: " + m)[..12] == "Rate limit: ";
    } else if call.CallFailed? {
      assert ("Error: " + call.message)[..7] == "Error: ";
    } else {
      var m := decode(call.content).error;
      assert ("Error: " + m)[..7] == "Error: ";
    }
  }

  /**
   * An admitted call that the service answers is booked once: today's request count
   * grows by one, one instant joins the window and the cost tracker gains the
   * reply's price, whether or not the reply can be decoded.
   */
  lemma AnsweredCallIsBooked(l: Limits, s: AnalyzerState, text: string, ticker: Option<string>, today: Date,
                             now: Instant, call: CallOutcome, decode: Decoder)
    requires CacheKey(text, ticker) !in s.cache
    requires Check(l, s.limiter, today, now).0 == None
    requires call.Replied?
    ensures var s' := Analyze(l, s, text, ticker, today, now, call, decode).1;
      var checked := Check(l, s.limiter, today, now).1;
      var tokens := call.promptTokens.GetOr(DefaultPromptTokens) + call.completionTokens.GetOr(DefaultCompletionTokens);
      && CountOn(s'.limiter.dailyRequests, today) == CountOn(checked.dailyRequests, today) + 1
      && s'.limiter.timestamps == checked.timestamps + [now]
      && CostOn(s'.costs, today) == CostOn(s.costs, today)
           + ReplyCost(call.promptTokens.GetOr(DefaultPromptTokens), call.completionTokens.GetOr(DefaultCompletionTokens))
      && CostOn(s'.limiter.dailyCosts, today) == CostOn(checked.dailyCosts, today) + EstimatedCost(tokens)
  {
    var checked := Check(l, s.limiter, today, now).1;
    RecentLater(AfterReset(s.limiter, today).timestamps, now - WindowSeconds, now - WindowSeconds);
    assert AfterClean(checked, now) == checked;
  }

  /**
   * The wait that follows an admitting check is always zero: the window the check
   * found below its ceiling can only shrink by the time the wait is computed.
   */
  lemma NoWaitAfterAdmission(l: Limits, c: Counters, today: Date, now: Instant, later: Instant)
    requires now <= later
    requires Check(l, c, today, now).0 == None
    ensures var checked := Check(l, c, today, now).1;
      WaitFor(l, AfterClean(checked, later).timestamps, later) == 0.0
  {
    var checked := Check(l, c, today, now).1;
    RecentLater(AfterReset(c, today).timestamps, now - WindowSeconds, later - WindowSeconds);
  }

  /** Once a text's reply has been decoded and cached, analyzing it again is a hit on that very record. */
  lemma RepeatIsCacheHit(l: Limits, s: AnalyzerState, text: string, ticker: Option<string>, today: Date,
                         now: Instant, call: CallOutcome, decode: Decoder,
                         today2: Date, now2: Instant, call2: CallOutcome)
    requires Analyze(l, s, text, ticker, today, now, call, decode).1.cache != s.cache
    ensures var (r, s') := Analyze(l, s, text, ticker, today, now, call, decode);
      Analyze(l, s', text, ticker, today2, now2, call2, decode) == (r, s')
  {
    CacheOnlyGrowsOnSuccess(l, s, text, ticker, today, now, call, decode);
  }

  /**
   * The clocks and oracles of a batch: the calendar day, the instant of the gateway
   * check before the batch starting at position `i`, the instant at which the text at
   * position `j` is analyzed, the service's answer for that text, and the decoding of
   * the replies (`Decoding(json)` for the service's `json`).
   */
  datatype Env = Env(
    today: Date,
    checkAt: int -> Instant,
    analyzeAt: int -> Instant,
    calls: int -> CallOutcome,
    decode: Decoder)

  /** One analysis at a batch position: the record and the state it leaves. */
  type Step = (AnalyzerState, string, int) -> (Sentiment, AnalyzerState)

  /** The gateway check before the batch at a position: the refusal, if any, and the state it leaves. */
  type Gate = (AnalyzerState, int) -> (Option<Refusal>, AnalyzerState)

  /** `analyze_sentiment` at batch position `pos`, with that position's clock and answer. */
  function AnalyzerStep(l: Limits, ticker: Option<string>, env: Env): Step {
    (st: AnalyzerState, text: string, pos: int) =>
      Analyze(l, st, text, ticker, env.today, env.analyzeAt(pos), env.calls(pos), env.decode)
  }

  /** `check_rate_limit` before the batch at position `i`; it changes only the gateway's counters. */
  function AnalyzerGate(l: Limits, env: Env): Gate {
    (st: AnalyzerState, i: int) =>
      var (verdict, checked) := Check(l, st.limiter, env.today, env.checkAt(i));
      (verdict, st.(limiter := checked))
  }

  /**
   * The first `k` texts analyzed one after the other by `step`, text `j` at position
   * `from + j`: their records and the state the last one leaves.
   */
  function AnalyzeFirst(step: Step, s: AnalyzerState, texts: seq<string>, from: int, k: nat): (out: (seq<Sentiment>, AnalyzerState))
    requires k <= |texts|
    ensures |out.0| == k
  {
    if k == 0 then ([], s)
    else
      var (done, s1) := AnalyzeFirst(step, s, texts, from, k - 1);
      var (r, s2) := step(s1, texts[k - 1], from + (k - 1));
      (done + [r], s2)
  }

  /** All the texts analyzed one after the other by `step`, the first at position `from`. */
  function AnalyzeEach(step: Step, s: AnalyzerState, texts: seq<string>, from: int): (out: (seq<Sentiment>, AnalyzerState))
    ensures |out.0| == |texts|
  {
    AnalyzeFirst(step, s, texts, from, |texts|)
  }

  /** The end of the batch of `size` texts starting at `i`: `texts[i:i + size]`. */
  function BatchEnd(n: int, i: int, size: int): int {
    if i + size <= n then i + size else n
  }

  /**
   * The batches from position `i` on: the gate before each batch of `size` texts; on
   * a refusal every remaining position gets the "Rate limit reached" record and
   * nothing more is analyzed.
   */
  function BatchFrom(gate: Gate, step: Step, s: AnalyzerState, texts: seq<string>,
                     i: nat, size: nat): (out: (seq<Sentiment>, AnalyzerState))
    requires size > 0
    ensures |out.0| == if i < |texts| then |texts| - i else 0
    decreases |texts| - i
  {
    if i >= |texts| then ([], s)
    else
      var (verdict, s1) := gate(s, i);
      if verdict.Some? then (seq(|texts| - i, _ => BatchRefused), s1)
      else
        var (batch, s2) := AnalyzeEach(step, s1, texts[i..BatchEnd(|texts|, i, size)], i);
        var (rest, s3) := BatchFrom(gate, step, s2, texts, i + size, size);
        (batch + rest, s3)
  }

  /** Python's `s[:n]`: a negative `n` counts from the end. */
  function SliceTo<T>(s: seq<T>, n: int): (r: seq<T>)
    ensures 0 <= n ==> r == s[..if n < |s| then n else |s|]
    ensures n < 0 ==> r == s[..if |s| + n > 0 then |s| + n else 0]
  {
    if n >= |s| then s
    else if n >= 0 then s[..n]
    else if |s| + n > 0 then s[..|s| + n]
    else []
  }

  /** The texts `batch_analyze` keeps: `texts[:min(len(texts), max_texts_per_request)]`. */
  function Limited(texts: seq<string>, maxTexts: int): seq<string> {
    SliceTo(texts, if |texts| < maxTexts then |texts| else maxTexts)
  }

  /**
   * `batch_analyze`: `range` refuses a zero step (the `ValueError` is `Failure`), a
   * negative step runs no batch, and otherwise the batches run from position 0.
   */
  function Batch(l: Limits, s: AnalyzerState, texts: seq<string>, ticker: Option<string>, batchSize: int,
                 maxTexts: int, env: Env): (r: Result<(seq<Sentiment>, AnalyzerState), string>)
    ensures r.Failure? <==> batchSize == 0
    ensures batchSize < 0 ==> r == Success(([], s))
    ensures batchSize > 0 ==> |r.value.0| == |Limited(texts, maxTexts)|
  {
    if batchSize == 0 then Failure("range() arg 3 must not be zero")
    else if batchSize < 0 then Success(([], s))
    else Success(BatchFrom(AnalyzerGate(l, env), AnalyzerStep(l, ticker, env), s, Limited(texts, maxTexts), 0, batchSize))
  }

  /** A refused check at position `i` ends the run with the refusal fill. */
  lemma BatchFromRefused(gate: Gate, step: Step, st: AnalyzerState, texts: seq<string>, i: nat, size: nat,
                         st': AnalyzerState)
    requires size > 0 && i < |texts| && gate(st, i).0.Some? && gate(st, i).1 == st'
    ensures BatchFrom(gate, step, st, texts, i, size) == (seq(|texts| - i, _ => BatchRefused), st')
  {
  }

  /** An admitted check at position `i` runs that batch and then the batches after it. */
  lemma BatchFromAdmitted(gate: Gate, step: Step, st: AnalyzerState, texts: seq<string>, i: nat, size: nat,
                          checked: AnalyzerState, batch: seq<Sentiment>, st': AnalyzerState)
    requires size > 0 && i < |texts| && gate(st, i) == (None, checked)
    requires AnalyzeEach(step, checked, texts[i..BatchEnd(|texts|, i, size)], i) == (batch, st')
    ensures var rest := BatchFrom(gate, step, st', texts, i + size, size);
      BatchFrom(gate, step, st, texts, i, size) == (batch + rest.0, rest.1)
  {
  }

  /** A run `done` then `run`, where `run` is `batch` then `rest`, is `done + batch` then `rest`. */
  lemma Regroup(whole: (seq<Sentiment>, AnalyzerState), done: seq<Sentiment>, run: (seq<Sentiment>, AnalyzerState),
                batch: seq<Sentiment>, rest: (seq<Sentiment>, AnalyzerState))
    requires whole == (done + run.0, run.1) && run == (batch + rest.0, rest.1)
    ensures whole == ((done + batch) + rest.0, rest.1)
  {
    assert (done + batch) + rest.0 == done + (batch + rest.0);
  }

  /**
   * A batch run gives exactly `min(len(texts), max_texts_per_request)` records for a
   * non-negative ceiling, refusals included.
   */
  lemma BatchLength(l: Limits, s: AnalyzerState, texts: seq<string>, ticker: Option<string>, batchSize: int,
                    maxTexts: int, env: Env)
    requires batchSize > 0 && maxTexts >= 0
    ensures Batch(l, s, texts, ticker, batchSize, maxTexts, env).Success?
    ensures |Batch(l, s, texts, ticker, batchSize, maxTexts, env).value.0|
         == if |texts| < maxTexts then |texts| else maxTexts
  {
  }

  /**
   * Record `k` of a run of analyses is the analysis of text `k` at its own position
   * `pos`, from the state the first `k` analyses left.
   */
  lemma {:induction false} AnalyzeFirstInOrder(step: Step, s: AnalyzerState, texts: seq<string>, from: int,
                                               n: nat, k: nat, pos: int)
    requires k < n <= |texts| && pos == from + k
    ensures AnalyzeFirst(step, s, texts, from, n).0[k] == step(AnalyzeFirst(step, s, texts, from, k).1, texts[k], pos).0
    decreases n
  {
    var (done, s1) := AnalyzeFirst(step, s, texts, from, n - 1);
    var (r, s2) := step(s1, texts[n - 1], from + (n - 1));
    var out := AnalyzeFirst(step, s, texts, from, n).0;
    assert out == done + [r];
    if k < n - 1 {
      AnalyzeFirstInOrder(step, s, texts, from, n - 1, k, pos);
      assert out[k] == done[k];
    }
  }

  /**
   * Inside the batch `texts[i..end]`, record `j - i` is the analysis of text `j` at
   * position `j`, from the state the batch's texts before it left.
   */
  lemma WithinBatchInOrder(step: Step, s: AnalyzerState, texts: seq<string>, i: nat, end: nat, j: nat)
    requires i <= j < end <= |texts|
    ensures AnalyzeEach(step, s, texts[i..end], i).0[j - i]
         == step(AnalyzeFirst(step, s, texts[i..end], i, j - i).1, texts[j], j).0
  {
    AnalyzeFirstInOrder(step, s, texts[i..end], i, end - i, j - i, j);
    assert texts[i..end][j - i] == texts[j];
  }

  /**
   * The state position `j` is analyzed from, in the batches from position `i` on:
   * the state left by the gates and the analyses before it, or `None` when a gate
   * refuses before `j` is reached.
   */
  function StateBefore(gate: Gate, step: Step, s: AnalyzerState, texts: seq<string>,
                       i: nat, size: nat, j: nat): Option<AnalyzerState>
    requires size > 0 && i <= j < |texts|
    decreases |texts| - i
  {
    var (verdict, s1) := gate(s, i);
    if verdict.Some? then None
    else
      var end := BatchEnd(|texts|, i, size);
      if j < end then Some(AnalyzeFirst(step, s1, texts[i..end], i, j - i).1)
      else StateBefore(gate, step, AnalyzeEach(step, s1, texts[i..end], i).1, texts, i + size, size, j)
  }

  /**
   * The records keep the order of the texts: each one is the refusal fill when a gate
   * refused before it, and otherwise the analysis of the text at the same position
   * from the state everything before it left.
   */
  lemma {:induction false} BatchFromInOrder(gate: Gate, step: Step, s: AnalyzerState, texts: seq<string>,
                                            i: nat, size: nat, j: nat, offset: nat)
    requires size > 0 && i <= j < |texts| && offset == j - i
    ensures |BatchFrom(gate, step, s, texts, i, size).0| == |texts| - i
    ensures var r := BatchFrom(gate, step, s, texts, i, size).0[offset];
      var st := StateBefore(gate, step, s, texts, i, size, j);
      && (st.None? ==> r == BatchRefused)
      && (st.Some? ==> r == step(st.value, texts[j], j).0)
    decreases |texts| - i
  {
    var (verdict, s1) := gate(s, i);
    if verdict.None? {
      var end := BatchEnd(|texts|, i, size);
      var (batch, s2) := AnalyzeEach(step, s1, texts[i..end], i);
      var (rest, s3) := BatchFrom(gate, step, s2, texts, i + size, size);
      assert BatchFrom(gate, step, s, texts, i, size).0 == batch + rest;
      if j < end {
        WithinBatchInOrder(step, s1, texts, i, end, j);
        assert (batch + rest)[j - i] == batch[j - i];
      } else {
        BatchFromInOrder(gate, step, s2, texts, i + size, size, j, j - (i + size));
        assert (batch + rest)[j - i] == rest[j - (i + size)];
      }
    }
  }

  /**
   * In a batch run, record `j` is the "Rate limit reached" fill when a check refused
   * before it, and otherwise the analysis of text `j` itself, with the clock and the
   * answer of position `j`, from the state the earlier checks and analyses left.
   */
  lemma BatchInOrder(l: Limits, s: AnalyzerState, texts: seq<string>, ticker: Option<string>, batchSize: int,
                     maxTexts: int, env: Env, j: nat)
    requires batchSize > 0 && j < |Limited(texts, maxTexts)|
    ensures Batch(l, s, texts, ticker, batchSize, maxTexts, env).Success?
    ensures var r := Batch(l, s, texts, ticker, batchSize, maxTexts, env).value.0;
      var st := StateBefore(AnalyzerGate(l, env), AnalyzerStep(l, ticker, env), s, Limited(texts, maxTexts), 0, batchSize, j);
      && j < |r|
      && (st.None? ==> r[j] == BatchRefused)
      && (st.Some? ==> r[j] == Analyze(l, st.value, texts[j], ticker, env.today, env.analyzeAt(j), env.calls(j), env.decode).0)
  {
    var limited := Limited(texts, maxTexts);
    BatchFromInOrder(AnalyzerGate(l, env), AnalyzerStep(l, ticker, env), s, limited, 0, batchSize, j, j);
    assert limited[j] == texts[j];
  }

  /** A refusal before a batch fills every remaining position and leaves the cache and the costs alone. */
  lemma RefusalFillsTheRest(l: Limits, s: AnalyzerState, texts: seq<string>, ticker: Option<string>,
                            i: nat, size: nat, env: Env)
    requires size > 0 && i < |texts|
    requires Check(l, s.limiter, env.today, env.checkAt(i)).0.Some?
    ensures var (r, s') := BatchFrom(AnalyzerGate(l, env), AnalyzerStep(l, ticker, env), s, texts, i, size);
      && |r| == |texts| - i
      && (forall k :: 0 <= k < |r| ==> r[k] == BatchRefused)
      && s'.cache == s.cache && s'.costs == s.costs
  {
  }

  class SentimentAnalyzer {
    var cache: map<string, Sentiment>
    const limiter: RateLimiter
    const tracker: CostTracker
    const maxTextsPerRequest: int

    /** The cache, the gateway's counters and the cost tracker's entries as one value. */
    function State(): AnalyzerState
      reads this, limiter, tracker
    {
      AnalyzerState(cache, limiter.State(), tracker.dailyCosts)
    }

    /**
     * An empty cache, a gateway of 60 requests per minute, 1000 per day and
     * `maxDailyCost` dollars per day, and a cost tracker, each loaded from its saved
     * file when there is one.
     */
    constructor (maxDailyCost: real, maxTextsPerRequest: int, today: Date,
                 savedLimiter: Option<SavedState>, savedCosts: Option<map<Date, real>>)
      ensures fresh(limiter) && fresh(tracker)
      ensures this.maxTextsPerRequest == maxTextsPerRequest
      ensures limiter.limits == Limits(PerMinuteCeiling, PerDayCeiling, maxDailyCost, CostPer1kTokens / 1000.0)
      ensures cache == map[]
      ensures limiter.requestsTimestamps == [] && limiter.lastResetDate == today
      ensures savedLimiter.Some? ==> limiter.Saved() == savedLimiter.value
      ensures savedLimiter.None? ==> limiter.Saved() == SavedState(map[], map[])
      ensures tracker.dailyCosts == (if savedCosts.Some? then savedCosts.value else map[])
    {
      cache := map[];
      this.maxTextsPerRequest := maxTextsPerRequest;
      limiter := new RateLimiter(PerMinuteCeiling, PerDayCeiling, maxDailyCost, CostPer1kTokens, today, savedLimiter);
      tracker := new CostTracker(today, savedCosts);
    }

    /**
     * `analyze_sentiment`, with the clock, the service's answer and the decoding of the
     * reply (`Decoding(json)` for the service's `json`) as arguments.
     */
    method AnalyzeSentiment(text: string, ticker: Option<string>, today: Date, now: Instant,
                            call: CallOutcome, decode: Decoder) returns (r: Sentiment)
      modifies this, limiter, tracker
      ensures (r, State()) == Analyze(limiter.limits, old(State()), text, ticker, today, now, call, decode)
    {
      var key := CacheKey(text, ticker);
      if key in cache {
        return cache[key];
      }
      var allowed, refusal := limiter.CheckRateLimit(today, now);
      if !allowed {
        return RefusedRecord(refusal.value);
      }
      var wait := limiter.WaitIfNeeded(now);
      r := Answer(key, today, now, call, decode);
    }

    /** The admitted part of `analyze_sentiment`: the call, its booking, the decoding and the cache write. */
    method Answer(key: string, today: Date, now: Instant, call: CallOutcome, decode: Decoder)
      returns (r: Sentiment)
      modifies this, limiter, tracker
      ensures (r, State()) == Admitted(old(State()), key, today, now, call, decode)
    {
      ghost var s0 := State();
      match call {
        case CallFailed(message) =>
          r := ErrorRecord(message);
        case Replied(content, promptTokens, completionTokens) =>
          var inputTokens := promptTokens.GetOr(DefaultPromptTokens);
          var outputTokens := completionTokens.GetOr(DefaultCompletionTokens);
          limiter.RecordRequest(today, now, inputTokens + outputTokens);
          tracker.AddCost(today, ReplyCost(inputTokens, outputTokens));
          ghost var booked := s0.(limiter := AfterRecord(s0.limiter, today, now, inputTokens + outputTokens),
                                  costs := AddCostTo(s0.costs, today, ReplyCost(inputTokens, outputTokens)));
          assert State() == booked;
          var decoded := decode(content);
          match decoded {
            case Success(record) =>
              cache := cache[key := record];
              r := record;
            case Failure(message) =>
              r := ErrorRecord(message);
          }
      }
    }

    /** The inner loop of `batch_analyze`: the texts of one batch analyzed in order, the first at position `from`. */
    method AnalyzeBatch(batch: seq<string>, ticker: Option<string>, from: int, env: Env)
      returns (results: seq<Sentiment>)
      modifies this, limiter, tracker
      ensures (results, State()) == AnalyzeEach(AnalyzerStep(limiter.limits, ticker, env), old(State()), batch, from)
    {
      ghost var start := State();
      results := [];
      for k := 0 to |batch|
        invariant (results, State()) == AnalyzeFirst(AnalyzerStep(limiter.limits, ticker, env), start, batch, from, k)
      {
        results := AnalyzeNext(batch, ticker, from, env, k, results, start);
      }
    }

    /** One turn of that loop: the text at position `k` analyzed and its record appended to `done`. */
    method AnalyzeNext(batch: seq<string>, ticker: Option<string>, from: int, env: Env, k: nat,
                       done: seq<Sentiment>, ghost start: AnalyzerState)
      returns (results: seq<Sentiment>)
      requires k < |batch|
      requires (done, State()) == AnalyzeFirst(AnalyzerStep(limiter.limits, ticker, env), start, batch, from, k)
      modifies this, limiter, tracker
      ensures (results, State()) == AnalyzeFirst(AnalyzerStep(limiter.limits, ticker, env), start, batch, from, k + 1)
    {
      ghost var step := AnalyzerStep(limiter.limits, ticker, env);
      ghost var here := State();
      var r := AnalyzeSentiment(batch[k], ticker, env.today, env.analyzeAt(from + k), env.calls(from + k), env.decode);
      assert step(here, batch[k], from + k) == (r, State());
      results := done + [r];
    }

    /**
     * One pass of the loop of `batch_analyze` at position `i`: the gateway check and,
     * when it admits, the batch `kept[i:i + size]`; `refused` exactly when the check refused.
     */
    method RunBatch(kept: seq<string>, ticker: Option<string>, i: nat, size: nat, env: Env)
      returns (refused: bool, results: seq<Sentiment>, next: nat)
      requires size > 0 && i < |kept|
      modifies this, limiter, tracker
      ensures next == i + size
      ensures refused ==>
        BatchFrom(AnalyzerGate(limiter.limits, env), AnalyzerStep(limiter.limits, ticker, env), old(State()), kept, i, size)
        == (seq(|kept| - i, _ => BatchRefused), State())
      ensures !refused ==> |results| == BatchEnd(|kept|, i, size) - i
      ensures !refused ==>
        BatchFrom(AnalyzerGate(limiter.limits, env), AnalyzerStep(limiter.limits, ticker, env), old(State()), kept, i, size)
        == (results + BatchFrom(AnalyzerGate(limiter.limits, env), AnalyzerStep(limiter.limits, ticker, env), State(), kept, next, size).0,
            BatchFrom(AnalyzerGate(limiter.limits, env), AnalyzerStep(limiter.limits, ticker, env), State(), kept, next, size).1)
    {
      ghost var gate := AnalyzerGate(limiter.limits, env);
      ghost var step := AnalyzerStep(limiter.limits, ticker, env);
      ghost var before := State();
      var allowed, refusal := limiter.CheckRateLimit(env.today, env.checkAt(i));
      assert gate(before, i) == (refusal, State());
      if !allowed {
        BatchFromRefused(gate, step, before, kept, i, size, State());
        return true, [], i + size;
      }
      results := RunAdmitted(kept, ticker, i, size, env, before);
      next := i + size;
      refused := false;
    }

    /** The admitted branch of that pass: the batch `kept[i:i + size]` analyzed after a check that let it through. */
    method RunAdmitted(kept: seq<string>, ticker: Option<string>, i: nat, size: nat, env: Env,
                       ghost before: AnalyzerState)
      returns (results: seq<Sentiment>)
      requires size > 0 && i < |kept|
      requires AnalyzerGate(limiter.limits, env)(before, i) == (None, State())
      modifies this, limiter, tracker
      ensures |results| == BatchEnd(|kept|, i, size) - i
      ensures BatchFrom(AnalyzerGate(limiter.limits, env), AnalyzerStep(limiter.limits, ticker, env), before, kept, i, size)
        == (results + BatchFrom(AnalyzerGate(limiter.limits, env), AnalyzerStep(limiter.limits, ticker, env), State(), kept, i + size, size).0,
            BatchFrom(AnalyzerGate(limiter.limits, env), AnalyzerStep(limiter.limits, ticker, env), State(), kept, i + size, size).1)
    {
      var batch := kept[i..BatchEnd(|kept|, i, size)];
      ghost var checked := State();
      results := AnalyzeBatch(batch, ticker, i, env);
      BatchFromAdmitted(AnalyzerGate(limiter.limits, env), AnalyzerStep(limiter.limits, ticker, env),
                        before, kept, i, size, checked, results, State());
    }

    /** The loop of `batch_analyze` over the kept texts, batch after batch, until the end or a refusal. */
    method RunBatches(kept: seq<string>, ticker: Option<string>, batchSize: nat, env: Env)
      returns (out: seq<Sentiment>)
      requires batchSize > 0
      modifies this, limiter, tracker
      ensures (out, State()) == BatchFrom(AnalyzerGate(limiter.limits, env), AnalyzerStep(limiter.limits, ticker, env),
                                          old(State()), kept, 0, batchSize)
    {
      ghost var gate := AnalyzerGate(limiter.limits, env);
      ghost var step := AnalyzerStep(limiter.limits, ticker, env);
      out := [];
      var i := 0;
      ghost var whole := BatchFrom(gate, step, State(), kept, 0, batchSize);
      assert out + whole.0 == whole.0;
      assert whole == (out + whole.0, whole.1);
      while i < |kept|
        invariant 0 <= i
        invariant |out| == if i < |kept| then i else |kept|
        invariant whole.0 == out + BatchFrom(gate, step, State(), kept, i, batchSize).0
        invariant whole.1 == BatchFrom(gate, step, State(), kept, i, batchSize).1
        decreases |kept| - i
      {
        ghost var run := BatchFrom(gate, step, State(), kept, i, batchSize);
        var refused, batchResults, next := RunBatch(kept, ticker, i, batchSize, env);
        if refused {
          var remaining := |kept| - |out|;
          out := out + seq(remaining, _ => BatchRefused);
          return;
        }
        Regroup(whole, out, run, batchResults, BatchFrom(gate, step, State(), kept, next, batchSize));
        out := out + batchResults;
        i := next;
      }
      assert out + [] == out;
    }

    /**
     * `batch_analyze`: the records of the kept texts in order and the state they
     * leave, exactly as `Batch` gives them; a zero batch size raises before anything
     * changes.
     */
    method BatchAnalyze(texts: seq<string>, ticker: Option<string>, batchSize: int, env: Env)
      returns (results: Result<seq<Sentiment>, string>)
      modifies this, limiter, tracker
      ensures results.Failure? <==> batchSize == 0
      ensures results.Failure? ==>
        && Batch(limiter.limits, old(State()), texts, ticker, batchSize, maxTextsPerRequest, env) == Failure(results.error)
        && State() == old(State())
      ensures results.Success? ==>
        Batch(limiter.limits, old(State()), texts, ticker, batchSize, maxTextsPerRequest, env) == Success((results.value, State()))
    {
      if batchSize == 0 {
        return Failure("range() arg 3 must not be zero");
      }
      var maxTexts := if |texts| < maxTextsPerRequest then |texts| else maxTextsPerRequest;
      var kept := SliceTo(texts, maxTexts);
      if batchSize < 0 {
        return Success([]);
      }
      assert kept == Limited(texts, maxTextsPerRequest);
      var out := RunBatches(kept, ticker, batchSize, env);
      return Success(out);
    }

    /**
     * `get_usage_stats`: the gateway's figures on counters reset for `today`, merged
     * with the cost tracker's. The tracker's `cost_today` replaces the gateway's, while
     * the remaining budget still comes from the gateway's own estimate.
     */
    method GetUsageStats(today: Date) returns (usage: Usage)
      modifies limiter
      ensures limiter.State() == AfterReset(old(limiter.State()), today)
      ensures usage.requestsLastMinute == |limiter.requestsTimestamps|
      ensures usage.requestsToday == CountOn(limiter.dailyRequests, today)
      ensures usage.maxRequestsPerMinute == limiter.limits.maxRequestsPerMinute
      ensures usage.maxRequestsPerDay == limiter.limits.maxRequestsPerDay
      ensures usage.maxDailyCost == limiter.limits.maxDailyCost
      ensures usage.remainingDailyBudget == limiter.limits.maxDailyCost - CostOn(limiter.dailyCosts, today)
      ensures usage.costToday == CostOn(tracker.dailyCosts, today)
      ensures usage.costThisWeek == TotalSince(tracker.dailyCosts, today, 7)
      ensures usage.costThisMonth == TotalSince(tracker.dailyCosts, today, 30)
    {
      var rate := limiter.GetStats(today);
      var cost := tracker.Stats(today);
      usage := Merge(rate, cost);
    }
  }

  /** The dictionary `get_usage_stats` returns (rounding not modelled). */
  datatype Usage = Usage(
    requestsLastMinute: int,
    maxRequestsPerMinute: int,
    requestsToday: int,
    maxRequestsPerDay: int,
    costToday: real,
    maxDailyCost: real,
    remainingDailyBudget: real,
    costThisWeek: real,
    costThisMonth: real)

  /** `{**rate_limit_stats, **cost_stats}`: on the shared key `cost_today` the cost tracker's figure wins. */
  function Merge(rate: Stats, cost: CostStats): (u: Usage)
    ensures u.costToday == cost.costToday && u.costThisWeek == cost.costThisWeek && u.costThisMonth == cost.costThisMonth
    ensures u.requestsLastMinute == rate.requestsLastMinute && u.maxRequestsPerMinute == rate.maxRequestsPerMinute
    ensures u.requestsToday == rate.requestsToday && u.maxRequestsPerDay == rate.maxRequestsPerDay
    ensures u.maxDailyCost == rate.maxDailyCost && u.remainingDailyBudget == rate.remainingDailyBudget
  {
    Usage(rate.requestsLastMinute, rate.maxRequestsPerMinute, rate.requestsToday, rate.maxRequestsPerDay,
          cost.costToday, rate.maxDailyCost, rate.remainingDailyBudget, cost.costThisWeek, cost.costThisMonth)
  }

  // Aggregation of many records (`aggregate_sentiment`)

  /** The summary of many records; the two percentages are absent from the summary of no records. */
  datatype Summary = Summary(
    overallSentiment: string,
    averageScore: real,
    weightedScore: real,
    confidence: real,
    positiveCount: nat,
    negativeCount: nat,
    neutralCount: nat,
    totalCount: nat,
    positivePercentage: Option<real>,
    negativePercentage: Option<real>)

  /** The fixed summary of no records. */
  const EmptySummary: Summary := Summary("neutral", 0.0, 0.0, 0.0, 0, 0, 0, 0, None, None)

  /** `result.get("score", 0.0)`. */
  function ScoreOf(r: RawRecord): real { r.score.GetOr(0.0) }

  /** `result.get("confidence", 0.5)`. */
  function ConfidenceOf(r: RawRecord): real { r.confidence.GetOr(0.5) }

  /** `result.get("sentiment", "neutral").lower()`. */
  function LabelOf(r: RawRecord): string { Lower(r.sentiment.GetOr("neutral")) }

  /** The sum of the scores. */
  function ScoreSum(rs: seq<RawRecord>): real {
    if rs == [] then 0.0 else ScoreSum(rs[..|rs| - 1]) + ScoreOf(rs[|rs| - 1])
  }

  /** The sum of the scores, each times its confidence. */
  function WeightedSum(rs: seq<RawRecord>): real {
    if rs == [] then 0.0 else WeightedSum(rs[..|rs| - 1]) + Weighted(rs[|rs| - 1])
  }

  /** A score times its confidence. */
  function Weighted(r: RawRecord): real { ScoreOf(r) * ConfidenceOf(r) }

  /** The sum of the confidences. */
  function ConfidenceSum(rs: seq<RawRecord>): real {
    if rs == [] then 0.0 else ConfidenceSum(rs[..|rs| - 1]) + ConfidenceOf(rs[|rs| - 1])
  }

  /** How many records carry the label `wanted` once lower-cased. */
  function LabelCount(rs: seq<RawRecord>, wanted: string): (n: nat)
    ensures n <= |rs|
  {
    if rs == [] then 0 else LabelCount(rs[..|rs| - 1], wanted) + (if LabelOf(rs[|rs| - 1]) == wanted then 1 else 0)
  }

  /** The overall label: bullish above 0.3, bearish below -0.3, neutral in between (both ends included). */
  function Overall(weighted: real): (overall: string)
    ensures overall == "bullish" <==> weighted > 0.3
    ensures overall == "bearish" <==> weighted < -0.3
    ensures overall == "neutral" <==> -0.3 <= weighted <= 0.3
  {
    if weighted > 0.3 then "bullish" else if weighted < -0.3 then "bearish" else "neutral"
  }

  /**
   * The summary of `rs`: the plain and the confidence-weighted mean score (the plain
   * mean when the confidences do not sum to a positive number), the mean confidence,
   * the three label counts and their shares of all records.
   */
  function Aggregate(rs: seq<RawRecord>): (a: Summary)
    ensures rs == [] ==> a == EmptySummary
    ensures a.totalCount == |rs|
    ensures a.positiveCount == LabelCount(rs, "positive") && a.negativeCount == LabelCount(rs, "negative")
    ensures a.neutralCount == LabelCount(rs, "neutral")
    ensures a.overallSentiment == Overall(a.weightedScore)
    ensures rs != [] ==>
      && a.averageScore == ScoreSum(rs) / |rs| as real
      && a.weightedScore == (if ConfidenceSum(rs) > 0.0 then WeightedSum(rs) / ConfidenceSum(rs) else a.averageScore)
      && a.confidence == ConfidenceSum(rs) / |rs| as real
      && a.positivePercentage == Some(a.positiveCount as real / |rs| as real * 100.0)
      && a.negativePercentage == Some(a.negativeCount as real / |rs| as real * 100.0)
  {
    if rs == [] then EmptySummary
    else
      var n := |rs| as real;
      var average := ScoreSum(rs) / n;
      var weighted := if ConfidenceSum(rs) > 0.0 then WeightedSum(rs) / ConfidenceSum(rs) else average;
      Summary(Overall(weighted), average, weighted, ConfidenceSum(rs) / n,
              LabelCount(rs, "positive"), LabelCount(rs, "negative"), LabelCount(rs, "neutral"), |rs|,
              Some(LabelCount(rs, "positive") as real / n * 100.0), Some(LabelCount(rs, "negative") as real / n * 100.0))
  }

  /** A label counts for at most one of the three tallies, so they never add up to more than the records. */
  lemma {:induction false} LabelCountsFit(rs: seq<RawRecord>)
    ensures LabelCount(rs, "positive") + LabelCount(rs, "negative") + LabelCount(rs, "neutral") <= |rs|
  {
    if rs != [] {
      LabelCountsFit(rs[..|rs| - 1]);
    }
  }

  /** The summary of some records counts them all, and its tallies fit within that count. */
  lemma Tallies(rs: seq<RawRecord>)
    ensures Aggregate(rs).totalCount == |rs|
    ensures Aggregate(rs).positiveCount + Aggregate(rs).negativeCount + Aggregate(rs).neutralCount <= Aggregate(rs).totalCount
    ensures rs == [] <==> Aggregate(rs) == EmptySummary
  {
    LabelCountsFit(rs);
  }

  /** A score in [-1, 1] times a non-negative confidence lies within that confidence. */
  lemma WeightedBounded(r: RawRecord)
    requires -1.0 <= ScoreOf(r) <= 1.0 && ConfidenceOf(r) >= 0.0
    ensures -ConfidenceOf(r) <= Weighted(r) <= ConfidenceOf(r)
  {
    var x, c := ScoreOf(r), ConfidenceOf(r);
    NonNegativeProduct(1.0 - x, c);
    NonNegativeProduct(1.0 + x, c);
    assert (1.0 - x) * c == c - x * c;
    assert (1.0 + x) * c == c + x * c;
  }

  /** Scores in [-1, 1] weighted by non-negative confidences stay within the sum of the confidences. */
  lemma {:induction false} WeightedSumBounded(rs: seq<RawRecord>)
    requires forall i :: 0 <= i < |rs| ==> -1.0 <= ScoreOf(rs[i]) <= 1.0 && ConfidenceOf(rs[i]) >= 0.0
    ensures -ConfidenceSum(rs) <= WeightedSum(rs) <= ConfidenceSum(rs)
    ensures ConfidenceSum(rs) >= 0.0
  {
    if rs != [] {
      var init, last := rs[..|rs| - 1], rs[|rs| - 1];
      assert forall i :: 0 <= i < |init| ==> init[i] == rs[i];
      WeightedSumBounded(init);
      WeightedBounded(last);
      assert WeightedSum(rs) == WeightedSum(init) + Weighted(last);
      assert ConfidenceSum(rs) == ConfidenceSum(init) + ConfidenceOf(last);
    }
  }

  /** Scores in [-1, 1] sum to no more than the number of records in magnitude. */
  lemma {:induction false} ScoreSumBounded(rs: seq<RawRecord>)
    requires forall i :: 0 <= i < |rs| ==> -1.0 <= ScoreOf(rs[i]) <= 1.0
    ensures -(|rs| as real) <= ScoreSum(rs) <= |rs| as real
  {
    if rs != [] {
      ScoreSumBounded(rs[..|rs| - 1]);
    }
  }

  /**
   * When every score lies in [-1, 1] and no confidence is negative, both the plain
   * and the weighted mean lie in [-1, 1].
   */
  lemma ScoresStayInRange(rs: seq<RawRecord>)
    requires forall i :: 0 <= i < |rs| ==> -1.0 <= ScoreOf(rs[i]) <= 1.0 && ConfidenceOf(rs[i]) >= 0.0
    ensures -1.0 <= Aggregate(rs).averageScore <= 1.0
    ensures -1.0 <= Aggregate(rs).weightedScore <= 1.0
  {
    if rs != [] {
      ScoreSumBounded(rs);
      WeightedSumBounded(rs);
      QuotientBounded(ScoreSum(rs), |rs| as real);
      if ConfidenceSum(rs) > 0.0 {
        QuotientBounded(WeightedSum(rs), ConfidenceSum(rs));
      }
    }
  }

  /**
   * The overall label of a summary follows the weighted mean, and the weighted mean is
   * the confidence-weighted one exactly when the confidences sum to a positive number.
   */
  lemma OverallFollowsWeighted(rs: seq<RawRecord>)
    requires rs != []
    ensures Aggregate(rs).overallSentiment == "bullish" <==> Aggregate(rs).weightedScore > 0.3
    ensures Aggregate(rs).overallSentiment == "bearish" <==> Aggregate(rs).weightedScore < -0.3
    ensures ConfidenceSum(rs) > 0.0 ==> Aggregate(rs).weightedScore == WeightedSum(rs) / ConfidenceSum(rs)
    ensures ConfidenceSum(rs) <= 0.0 ==> Aggregate(rs).weightedScore == ScoreSum(rs) / (|rs| as real)
  {
  }

  /**
   * `aggregate_sentiment`: one pass over the records accumulating the weighted sum,
   * the confidence sum, the scores and the label tallies, then the summary.
   */
  method AggregateSentiment(results: seq<RawRecord>) returns (summary: Summary)
    ensures summary == Aggregate(results)
  {
    if results == [] {
      return EmptySummary;
    }
    var weightedSum, totalConfidence, scoreSum, positive, negative, neutral := Accumulate(results);
    var n := |results| as real;
    var average := scoreSum / n;
    var weighted := if totalConfidence > 0.0 then weightedSum / totalConfidence else average;
    var overall := if weighted > 0.3 then "bullish" else if weighted < -0.3 then "bearish" else "neutral";
    summary := Summary(overall, average, weighted, totalConfidence / n, positive, negative, neutral, |results|,
                       Some(positive as real / n * 100.0), Some(negative as real / n * 100.0));
  }

  /** The loop of `aggregate_sentiment`: the three sums and the three label tallies. */
  method Accumulate(results: seq<RawRecord>)
    returns (weightedSum: real, totalConfidence: real, scoreSum: real, positive: nat, negative: nat, neutral: nat)
    ensures weightedSum == WeightedSum(results) && totalConfidence == ConfidenceSum(results)
    ensures scoreSum == ScoreSum(results)
    ensures positive == LabelCount(results, "positive") && negative == LabelCount(results, "negative")
    ensures neutral == LabelCount(results, "neutral")
  {
    weightedSum, totalConfidence, scoreSum := 0.0, 0.0, 0.0;
    positive, negative, neutral := 0, 0, 0;
    for k := 0 to |results|
      invariant weightedSum == WeightedSum(results[..k])
      invariant totalConfidence == ConfidenceSum(results[..k])
      invariant scoreSum == ScoreSum(results[..k])
      invariant positive == LabelCount(results[..k], "positive")
      invariant negative == LabelCount(results[..k], "negative")
      invariant neutral == LabelCount(results[..k], "neutral")
    {
      var r := results[k];
      var score := r.score.GetOr(0.0);
      var confidence := r.confidence.GetOr(0.5);
      var sentiment := Lower(r.sentiment.GetOr("neutral"));
      assert results[..k + 1][..k] == results[..k];
      scoreSum := scoreSum + score;
      weightedSum := weightedSum + score * confidence;
      assert score * confidence == Weighted(r);
      totalConfidence := totalConfidence + confidence;
      if sentiment == "positive" {
        positive := positive + 1;
      } else if sentiment == "negative" {
        negative := negative + 1;
      } else if sentiment == "neutral" {
        neutral := neutral + 1;
      }
    }
    assert results[..|results|] == results;
  }
}
