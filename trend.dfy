/**
 * Heat and trend analysis (`TrendAnalyzer`): the four rolling windows
 * relative to `now`, change and change rate with the zero-denominator
 * guard, the five-way trend direction, the day table of the trend chart,
 * the origin summary and the branching of the written conclusion.
 * Timestamps are integer seconds; rates are exact reals.
 */
module Trend {
  import opened Wrappers
  import opened Seqs
  import opened Counting
  import opened News

  datatype Direction = SharpRise | SlowRise | SharpFall | SlowFall | Stable

  /** A window of record ages (`now - t`, in seconds): at most `upper`, or in `(lower, upper]`. */
  datatype Window = Since(upper: int) | Between(lower: int, upper: int)

  const Last24h: Window := Since(24 * 3600)
  const Prev24h: Window := Between(24 * 3600, 48 * 3600)
  const Last7d: Window := Since(7 * 24 * 3600)
  const Prev7d: Window := Between(7 * 24 * 3600, 14 * 24 * 3600)

  predicate InWindow(age: int, w: Window) {
    match w
    case Since(upper) => age <= upper
    case Between(lower, upper) => lower < age <= upper
  }

  /** How many of the instants `ts` fall in window `w` as seen at `now`. */
  function CountIn(ts: seq<int>, now: int, w: Window): (n: nat)
    ensures n <= |ts|
  {
    if ts == [] then 0
    else CountIn(ts[..|ts| - 1], now, w) + (if InWindow(now - ts[|ts| - 1], w) then 1 else 0)
  }

  /** A wider window counts at least as many records: the last day lies within the last week. */
  lemma {:induction false} WindowNested(ts: seq<int>, now: int, narrow: int, wide: int)
    requires narrow <= wide
    ensures CountIn(ts, now, Since(narrow)) <= CountIn(ts, now, Since(wide))
  {
    if ts != [] {
      WindowNested(ts[..|ts| - 1], now, narrow, wide);
    }
  }

  /** The last 24 hours and the 24 hours before them split the last 48 hours without overlap. */
  lemma {:induction false} WindowsSplit(ts: seq<int>, now: int, lower: int, upper: int)
    requires lower <= upper
    ensures CountIn(ts, now, Since(lower)) + CountIn(ts, now, Between(lower, upper)) == CountIn(ts, now, Since(upper))
  {
    if ts != [] {
      WindowsSplit(ts[..|ts| - 1], now, lower, upper);
    }
  }

  /** `change / previous * 100`, and exactly 0.0 when the previous window is empty. */
  function Rate(change: int, previous: int): (r: real)
    ensures previous <= 0 ==> r == 0.0
    ensures previous > 0 ==> r * (previous as real) == (change as real) * 100.0
  {
    if previous > 0 then (change as real) / (previous as real) * 100.0 else 0.0
  }

  /** The trend direction, checked in priority order on the unrounded 24-hour rate. */
  function Classify(rate: real): Direction {
    if rate > 50.0 then SharpRise
    else if rate > 20.0 then SlowRise
    else if rate < -50.0 then SharpFall
    else if rate < -20.0 then SlowFall
    else Stable
  }

  /** The direction from the two window counts alone, in integer arithmetic. */
  function DirectionOfCounts(current: int, previous: int): Direction {
    var change := current - previous;
    if previous <= 0 then Stable
    else if 2 * change > previous then SharpRise
    else if 5 * change > previous then SlowRise
    else if 2 * change < -previous then SharpFall
    else if 5 * change < -previous then SlowFall
    else Stable
  }

  /** Comparing the rate with a threshold is comparing `change * 100` with `threshold * previous`. */
  lemma RateCompare(change: int, previous: int, threshold: int)
    requires previous > 0
    ensures Rate(change, previous) > threshold as real <==> change * 100 > threshold * previous
    ensures Rate(change, previous) < threshold as real <==> change * 100 < threshold * previous
  {
    var r := Rate(change, previous);
    var p := previous as real;
    assert r * p == (change as real) * 100.0;
    if r > threshold as real {
      assert r * p > (threshold as real) * p;
    }
    if r < threshold as real {
      assert r * p < (threshold as real) * p;
    }
    if r <= threshold as real {
      assert r * p <= (threshold as real) * p;
    }
    if r >= threshold as real {
      assert r * p >= (threshold as real) * p;
    }
  }

  /** Classifying the real rate agrees with the integer reference for every pair of counts. */
  lemma ClassifyMatchesCounts(current: int, previous: int)
    ensures Classify(Rate(current - previous, previous)) == DirectionOfCounts(current, previous)
  {
    if previous > 0 {
      var c := current - previous;
      RateCompare(c, previous, 50);
      RateCompare(c, previous, 20);
      RateCompare(c, previous, -50);
      RateCompare(c, previous, -20);
    }
  }

  /** The boundaries are strict: a rate of exactly 50 is a slow rise and exactly -20 is stable. */
  lemma ClassifyBoundaries()
    ensures Classify(50.0) == SlowRise && Classify(20.0) == Stable
    ensures Classify(-50.0) == SlowFall && Classify(-20.0) == Stable
  {
  }

  /** What `calculate_heat_change` returns. */
  datatype HeatChange = HeatChange(change24h: int, rate24h: real, change7d: int, rate7d: real, direction: Direction)

  const Fallback: HeatChange := HeatChange(0, 0.0, 0, 0.0, Stable)

  /**
   * The records can be sorted (their sort key, with the sentinel for a
   * missing time, parses) and placed in the windows (their time, with ""
   * for a missing one, parses).
   */
  predicate Timed(x: NewsItem, parse: string -> Option<int>) {
    parse(x.publishTime.GetOr(LatestSentinel)).Some? && parse(x.publishTime.GetOr("")).Some?
  }

  /** The publish instants of records that are all `Timed`. */
  function Instants(s: seq<NewsItem>, parse: string -> Option<int>): (ts: seq<int>)
    requires forall x :: x in s ==> Timed(x, parse)
    ensures |ts| == |s|
  {
    if s == [] then []
    else
      assert forall x :: x in s[..|s| - 1] ==> x in s;
      assert s[|s| - 1] in s;
      assert Timed(s[|s| - 1], parse);
      Instants(s[..|s| - 1], parse) + [parse(s[|s| - 1].publishTime.GetOr("")).value]
  }

  /**
   * `calculate_heat_change`: the all-zero stable fallback for no records and
   * whenever any record's time is missing or unparseable (the whole
   * computation raises); otherwise the two changes, their rates and the
   * direction of the 24-hour rate.
   */
  function HeatChangeOf(s: seq<NewsItem>, now: int, parse: string -> Option<int>): (h: HeatChange)
    ensures s == [] || (exists x :: x in s && !Timed(x, parse)) ==> h == Fallback
    ensures h.direction == Classify(h.rate24h)
    ensures s != [] && (forall x :: x in s ==> Timed(x, parse)) ==>
      var ts := Instants(s, parse);
      && h.change24h == CountIn(ts, now, Last24h) - CountIn(ts, now, Prev24h)
      && h.change7d == CountIn(ts, now, Last7d) - CountIn(ts, now, Prev7d)
      && h.rate24h == Rate(h.change24h, CountIn(ts, now, Prev24h))
      && h.rate7d == Rate(h.change7d, CountIn(ts, now, Prev7d))
  {
    if s == [] || exists x :: x in s && !Timed(x, parse) then Fallback
    else
      var ts := Instants(s, parse);
      var c24 := CountIn(ts, now, Last24h) - CountIn(ts, now, Prev24h);
      var c7 := CountIn(ts, now, Last7d) - CountIn(ts, now, Prev7d);
      var r24 := Rate(c24, CountIn(ts, now, Prev24h));
      HeatChange(c24, r24, c7, Rate(c7, CountIn(ts, now, Prev7d)), Classify(r24))
  }

  /** The direction depends only on the counts of the last two days. */
  lemma HeatDirectionFromCounts(s: seq<NewsItem>, now: int, parse: string -> Option<int>)
    requires s != [] && forall x :: x in s ==> Timed(x, parse)
    ensures var ts := Instants(s, parse);
      HeatChangeOf(s, now, parse).direction == DirectionOfCounts(CountIn(ts, now, Last24h), CountIn(ts, now, Prev24h))
  {
    var ts := Instants(s, parse);
    var last: int, prev: int := CountIn(ts, now, Last24h), CountIn(ts, now, Prev24h);
    var h := HeatChangeOf(s, now, parse);
    assert h.rate24h == Rate(last - prev, prev);
    ClassifyMatchesCounts(last, prev);
  }

  /** The 24-hour change never exceeds the number of records seen in the last day. */
  lemma HeatChangeBounds(s: seq<NewsItem>, now: int, parse: string -> Option<int>)
    ensures -|s| <= HeatChangeOf(s, now, parse).change24h <= |s|
    ensures -|s| <= HeatChangeOf(s, now, parse).change7d <= |s|
  {
  }

  /** A future-dated record is in both the last day and the last week. */
  lemma FutureRecordCounted(t: int, now: int)
    requires t > now
    ensures CountIn([t], now, Last24h) == 1 && CountIn([t], now, Last7d) == 1
    ensures CountIn([t], now, Prev24h) == 0 && CountIn([t], now, Prev7d) == 0
  {
    assert [t][..0] == [];
  }

  // ---------------------------------------------------------------- origin

  /** `s.split(" ")[0]`: the text before the first space. */
  function FirstField(s: string): (r: string)
    ensures |r| <= |s| && r == s[..|r|]
    ensures ' ' !in r
    ensures |r| < |s| ==> s[|r|] == ' '
  {
    if s == [] || s[0] == ' ' then [] else [s[0]] + FirstField(s[1..])
  }

  datatype Origin = Origin(earliest: Option<NewsItem>, earliestDate: string, originPlatform: string, possibleCauses: seq<string>)

  /** The three fixed cause sentences about a keyword. */
  function Causes(keyword: string): seq<string> {
    ["由于" + keyword + "相关事件的突发性，引发了公众关注",
     keyword + "领域的最新研究成果公布",
     "权威媒体对" + keyword + "进行了深度报道"]
  }

  /**
   * `analyze_origin`: empty when the keyword has no earliest record,
   * otherwise its date part, its platform ("" when absent) and the causes.
   */
  function OriginOf(earliest: Option<NewsItem>, keyword: string): (o: Origin)
    ensures earliest.None? ==> o == Origin(None, "", "", [])
    ensures earliest.Some? ==>
      && o.earliest == earliest
      && |o.earliestDate| <= |earliest.value.publishTime.GetOr("")|
      && o.earliestDate == earliest.value.publishTime.GetOr("")[..|o.earliestDate|]
      && ' ' !in o.earliestDate
      && o.originPlatform == earliest.value.platform.GetOr("")
      && |o.possibleCauses| == 3
  {
    match earliest
    case None => Origin(None, "", "", [])
    case Some(x) => Origin(earliest, FirstField(x.publishTime.GetOr("")), x.platform.GetOr(""), Causes(keyword))
  }

  /** A stamp "date time" yields exactly its date part. */
  lemma FirstFieldOfStamp(date: string, time: string)
    requires ' ' !in date
    ensures FirstField(date + " " + time) == date
  {
    if date != [] {
      assert (date + " " + time)[1..] == date[1..] + " " + time;
      FirstFieldOfStamp(date[1..], time);
    }
  }

  // ---------------------------------------------------------------- conclusion

  datatype HeatLevel = High | Medium | Low
  datatype DayTrend = SharpUp | ClearUp | Steady | ClearDown | SharpDown
  datatype Engagement = VeryHigh | FairlyHigh | Ordinary
  datatype Tendency = MostlyPositive | MostlyNegative | LeanPositive | LeanNegative | Balanced
  datatype Advice1 = FollowClosely | WatchLess | KeepRoutine
  datatype Advice3 = AnswerNegative | AmplifyPositive | WatchMood

  /** The sentiment counts: positive, neutral and negative. */
  datatype Sentiment = Sentiment(positive: int, neutral: int, negative: int)

  datatype Conclusion = Conclusion(
    keyword: string, heat: HeatLevel, direction: Direction, dayTrend: DayTrend,
    engagement: Engagement, tendency: Tendency, advice1: Advice1, advice3: Advice3)

  function HeatLevelOf(rate: real): HeatLevel {
    if rate > 50.0 then High else if rate > 20.0 then Medium else Low
  }

  /** The 24-hour sentence, cut with strict ">" at 50, 20, -20 and -50. */
  function DayTrendOf(rate: real): DayTrend {
    if rate > 50.0 then SharpUp
    else if rate > 20.0 then ClearUp
    else if rate > -20.0 then Steady
    else if rate > -50.0 then ClearDown
    else SharpDown
  }

  function EngagementOf(total: int): Engagement {
    if total > 100 then VeryHigh else if total > 50 then FairlyHigh else Ordinary
  }

  function TendencyOf(s: Sentiment): Tendency {
    if s.positive > s.negative * 2 then MostlyPositive
    else if s.negative > s.positive * 2 then MostlyNegative
    else if s.positive > s.negative then LeanPositive
    else if s.negative > s.positive then LeanNegative
    else Balanced
  }

  function Advice1Of(d: Direction): Advice1 {
    if d == SharpRise || d == SlowRise then FollowClosely
    else if d == SharpFall || d == SlowFall then WatchLess
    else KeepRoutine
  }

  function Advice3Of(s: Sentiment): Advice3 {
    if s.negative > s.positive then AnswerNegative
    else if s.positive > s.negative * 2 then AmplifyPositive
    else WatchMood
  }

  /** `generate_conclusion` with its text replaced by the choice made in each paragraph. */
  function Conclude(keyword: string, h: HeatChange, s: Sentiment): (c: Conclusion)
    ensures c.direction == h.direction && c.keyword == keyword
    ensures c.heat == HeatLevelOf(h.rate24h) && c.dayTrend == DayTrendOf(h.rate24h)
    ensures c.engagement == EngagementOf(s.positive + s.neutral + s.negative)
    ensures c.tendency == TendencyOf(s) && c.advice1 == Advice1Of(h.direction) && c.advice3 == Advice3Of(s)
  {
    Conclusion(keyword, HeatLevelOf(h.rate24h), h.direction, DayTrendOf(h.rate24h),
               EngagementOf(s.positive + s.neutral + s.negative), TendencyOf(s),
               Advice1Of(h.direction), Advice3Of(s))
  }

  /** The day trend the direction names, where the two cut-offs agree. */
  function DayTrendFor(d: Direction): DayTrend {
    match d
    case SharpRise => SharpUp
    case SlowRise => ClearUp
    case Stable => Steady
    case SlowFall => ClearDown
    case SharpFall => SharpDown
  }

  /**
   * The 24-hour sentence agrees with the direction for every rate except
   * exactly -20 and -50, where the sentence already reports a fall of the
   * next grade.
   */
  lemma DayTrendAgreesWithDirection(rate: real)
    ensures rate != -20.0 && rate != -50.0 ==> DayTrendOf(rate) == DayTrendFor(Classify(rate))
    ensures rate == -20.0 ==> Classify(rate) == Stable && DayTrendOf(rate) == ClearDown
    ensures rate == -50.0 ==> Classify(rate) == SlowFall && DayTrendOf(rate) == SharpDown
  {
  }

  /** The heat paragraph says "high" exactly for a sharp rise and "medium" exactly for a slow rise. */
  lemma HeatLevelMatchesDirection(rate: real)
    ensures HeatLevelOf(rate) == High <==> Classify(rate) == SharpRise
    ensures HeatLevelOf(rate) == Medium <==> Classify(rate) == SlowRise
  {
  }

  /** Swapping positive and negative counts swaps the tendency. */
  lemma TendencySymmetric(s: Sentiment)
    requires s.positive >= 0 && s.negative >= 0
    ensures var t := TendencyOf(Sentiment(s.negative, s.neutral, s.positive));
      match TendencyOf(s)
      case MostlyPositive => t == MostlyNegative
      case MostlyNegative => t == MostlyPositive
      case LeanPositive => t == LeanNegative
      case LeanNegative => t == LeanPositive
      case Balanced => t == Balanced
  {
  }

  /** The third suggestion follows the tendency: negative-leaning counts get the warning, dominant positive ones the amplification. */
  lemma AdviceFollowsTendency(s: Sentiment)
    requires s.positive >= 0 && s.negative >= 0
    ensures Advice3Of(s) == AnswerNegative <==> TendencyOf(s) == MostlyNegative || TendencyOf(s) == LeanNegative
    ensures Advice3Of(s) == AmplifyPositive <==> TendencyOf(s) == MostlyPositive
    ensures TendencyOf(s) == Balanced <==> s.positive == s.negative
  {
  }

  // ---------------------------------------------------------------- the analyzer

  /** Everything `analyze_trend` gathers about a keyword, less chart and word-cloud paths. */
  datatype TrendReport = TrendReport(
    keyword: string, days: int, dayCounts: map<int, int>, heatChange: HeatChange, origin: Origin,
    tagDistribution: map<string, int>, sentiment: Sentiment, platformDistribution: map<string, int>,
    interactions: Interactions, conclusion: Conclusion)

  class TrendAnalyzer {
    const manager: NewsDataManager

    constructor (manager: NewsDataManager)
      ensures this.manager == manager
    {
      this.manager := manager;
    }

    /** The day table behind the trend chart of `generate_trend_chart`. */
    method TrendChartCounts(newsList: seq<NewsItem>, days: int, now: int, parse: string -> Option<int>)
      returns (m: map<int, int>)
      ensures m == DayTable(newsList, parse, days, now)
      ensures days >= 0 ==> |m.Keys| == days + 1
      ensures forall d :: d in m ==> 0 <= m[d] <= |newsList|
    {
      m := CountByDay(newsList, parse, days, now);
      DayTableSize(newsList, parse, days, now);
    }

    /**
     * `analyze_trend`: nothing when the keyword has no records; otherwise the
     * day table, heat change, origin, distributions, interaction totals and
     * the conclusion. `sentiment` stands for the randomly drawn counts.
     */
    method AnalyzeTrend(keyword: string, days: int, now: int, parse: string -> Option<int>, sentiment: Sentiment)
      returns (r: Option<TrendReport>)
      ensures r.None? <==> OfKeyword(manager.news, keyword) == []
      ensures r.Some? ==> var list := OfKeyword(manager.news, keyword);
        && r.value.keyword == keyword && r.value.days == days
        && r.value.dayCounts == DayTable(list, parse, days, now)
        && r.value.heatChange == HeatChangeOf(list, now, parse)
        && r.value.origin == OriginOf(Earliest(list, parse), keyword)
        && r.value.tagDistribution == Tally(TagKeys(list))
        && r.value.platformDistribution == Tally(PlatformKeys(list))
        && r.value.interactions == Totals(list)
        && r.value.conclusion == Conclude(keyword, HeatChangeOf(list, now, parse), sentiment)
    {
      var list := manager.GetNewsByKeyword(keyword);
      if list == [] {
        return None;
      }
      var dayCounts := TrendChartCounts(list, days, now, parse);
      var heat := HeatChangeOf(list, now, parse);
      var origin := OriginOf(manager.GetEarliestNewsByKeyword(keyword, parse), keyword);
      var tags := manager.GetTagDistributionByKeyword(keyword);
      var platforms := manager.GetPlatformDistributionByKeyword(keyword);
      var interactions := manager.GetInteractionDataByKeyword(keyword);
      var conclusion := Conclude(keyword, heat, sentiment);
      r := Some(TrendReport(keyword, days, dayCounts, heat, origin, tags, sentiment, platforms, interactions, conclusion));
    }
  }
}
