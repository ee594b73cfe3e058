/**
 * The news record store (`NewsDataManager`): url-deduplicating saves, the
 * record filters, the hot-score ranking, the platform, tag and per-day
 * counts, the interaction totals and the earliest-record lookup.
 *
 * A record's optional fields are `Option`s: `None` is a key the stored
 * dictionary does not have. Timestamps are integer seconds and the text
 * `"%Y-%m-%d %H:%M:%S"` is read by a caller-supplied `parse`, which yields
 * `None` where `strptime` raises.
 */
module News {
  import opened Wrappers
  import opened Seqs
  import opened Ranking
  import opened Counting

  datatype NewsItem = NewsItem(
    keyword: Option<string>,
    title: string,
    url: Option<string>,
    platform: Option<string>,
    platformType: Option<string>,
    publishTime: Option<string>,
    tags: seq<string>,
    readCount: Option<int>,
    commentCount: Option<int>,
    likeCount: Option<int>,
    shareCount: Option<int>,
    forwardCount: Option<int>,
    hotScore: Option<int>)

  /** The platform name counted for a record without one. */
  const UnknownPlatform: string := "未知平台"

  /** The publish time assumed for a record without one when looking for the earliest record. */
  const LatestSentinel: string := "9999-12-31 23:59:59"

  const SecondsPerDay: int := 86400

  /** `item.get(name, 0)` for an interaction counter. */
  function Counter(c: Option<int>): int {
    c.GetOr(0)
  }

  function ReadOf(x: NewsItem): int { Counter(x.readCount) }
  function CommentOf(x: NewsItem): int { Counter(x.commentCount) }
  function LikeOf(x: NewsItem): int { Counter(x.likeCount) }
  function ShareOf(x: NewsItem): int { Counter(x.shareCount) }
  function ForwardOf(x: NewsItem): int { Counter(x.forwardCount) }

  /** The heat formula of `get_hot_news`: read + 5 comment + 2 like + 3 share + 3 forward. */
  function HotScore(x: NewsItem): int {
    ReadOf(x) + 5 * CommentOf(x) + 2 * LikeOf(x) + 3 * ShareOf(x) + 3 * ForwardOf(x)
  }

  // ---------------------------------------------------------------- save_news

  /** Outcome of `any(existing["url"] == url for existing in acc)`. */
  datatype Probe = Seen | Unseen | Raised

  predicate AllHaveUrl(s: seq<NewsItem>) {
    forall x :: x in s ==> x.url.Some?
  }

  predicate HasUrl(s: seq<NewsItem>, u: string) {
    exists x :: x in s && x.url == Some(u)
  }

  /** No two records share a url. */
  predicate UrlsDistinct(s: seq<NewsItem>) {
    forall i, j :: 0 <= i < j < |s| ==> s[i].url != s[j].url
  }

  /**
   * The duplicate test of `save_news`, scanning `acc` from the front: a
   * stored record without "url", or a candidate without one, raises
   * `KeyError` before a match is found; an empty `acc` never looks at the
   * candidate.
   */
  function ProbeUrl(acc: seq<NewsItem>, url: Option<string>): (p: Probe)
    ensures acc == [] ==> p == Unseen
    ensures acc != [] && url.None? ==> p == Raised
    ensures AllHaveUrl(acc) && url.Some? ==> (p == Seen <==> HasUrl(acc, url.value)) && p != Raised
    ensures p == Raised ==> url.None? || !AllHaveUrl(acc)
  {
    if acc == [] then Unseen
    else if acc[0].url.None? || url.None? then Raised
    else if acc[0].url == url then Seen
    else
      assert forall x :: x in acc[1..] ==> x in acc;
      assert forall x :: x in acc ==> x == acc[0] || x in acc[1..];
      ProbeUrl(acc[1..], url)
  }

  /**
   * The list `save_news` builds: the stored records, then each candidate in
   * order whose url no record of the growing list has yet; `None` when the
   * duplicate test raises, in which case nothing is saved.
   */
  function DedupAppend(existing: seq<NewsItem>, items: seq<NewsItem>): (r: Option<seq<NewsItem>>)
    ensures r.Some? ==> |existing| <= |r.value| && r.value[..|existing|] == existing
    ensures r.Some? ==> forall x :: x in r.value ==> x in existing || x in items
    ensures r.Some? ==> |r.value| <= |existing| + |items|
  {
    if items == [] then Some(existing)
    else
      var x := items[|items| - 1];
      match DedupAppend(existing, items[..|items| - 1])
      case None => None
      case Some(acc) =>
        match ProbeUrl(acc, x.url)
        case Raised => None
        case Seen => Some(acc)
        case Unseen => Some(acc + [x])
  }

  /** Once the duplicate test has raised for a prefix of the batch, the whole save fails. */
  lemma {:induction false} DedupErrorSticks(existing: seq<NewsItem>, items: seq<NewsItem>, k: nat)
    requires k <= |items|
    requires DedupAppend(existing, items[..k]).None?
    ensures DedupAppend(existing, items).None?
    decreases |items| - k
  {
    if k == |items| {
      assert items[..k] == items;
    } else {
      var init := items[..|items| - 1];
      assert init[..k] == items[..k];
      DedupErrorSticks(existing, init, k);
    }
  }

  /** With a url on every record and candidate the save cannot raise, and every record of the result has a url. */
  lemma {:induction false} DedupSucceeds(existing: seq<NewsItem>, items: seq<NewsItem>)
    requires AllHaveUrl(existing) && AllHaveUrl(items)
    ensures DedupAppend(existing, items).Some?
    ensures AllHaveUrl(DedupAppend(existing, items).value)
  {
    if items != [] {
      var init := items[..|items| - 1];
      assert AllHaveUrl(init) by { assert forall x :: x in init ==> x in items; }
      DedupSucceeds(existing, init);
      assert items[|items| - 1] in items;
    }
  }

  /** Stored urls that are pairwise distinct stay pairwise distinct. */
  lemma {:induction false} DedupKeepsDistinct(existing: seq<NewsItem>, items: seq<NewsItem>)
    requires AllHaveUrl(existing) && AllHaveUrl(items) && UrlsDistinct(existing)
    ensures DedupAppend(existing, items).Some?
    ensures UrlsDistinct(DedupAppend(existing, items).value)
  {
    DedupSucceeds(existing, items);
    if items != [] {
      var init := items[..|items| - 1];
      assert AllHaveUrl(init) by { assert forall x :: x in init ==> x in items; }
      DedupKeepsDistinct(existing, init);
      DedupSucceeds(existing, init);
      var acc := DedupAppend(existing, init).value;
      var x := items[|items| - 1];
      assert x in items;
      if ProbeUrl(acc, x.url) == Unseen {
        forall i | 0 <= i < |acc| ensures acc[i].url != x.url {
          assert acc[i] in acc;
        }
      }
    }
  }

  /** After a save every candidate's url is stored. */
  lemma {:induction false} DedupCoversUrls(existing: seq<NewsItem>, items: seq<NewsItem>)
    requires AllHaveUrl(existing) && AllHaveUrl(items)
    ensures DedupAppend(existing, items).Some?
    ensures forall x :: x in items ==> HasUrl(DedupAppend(existing, items).value, x.url.value)
  {
    DedupSucceeds(existing, items);
    if items != [] {
      var init, last := items[..|items| - 1], items[|items| - 1];
      assert items == init + [last];
      assert AllHaveUrl(init);
      DedupCoversUrls(existing, init);
      DedupLastStep(existing, items);
      var acc := DedupAppend(existing, init).value;
      var r := DedupAppend(existing, items).value;
      forall x | x in items ensures HasUrl(r, x.url.value) {
        if x != last {
          assert x in init;
          var w :| w in acc && w.url == Some(x.url.value);
          assert w in r;
        }
      }
    }
  }

  /** One more candidate: the list saved so far is kept, and the candidate's url is stored. */
  lemma DedupLastStep(existing: seq<NewsItem>, items: seq<NewsItem>)
    requires AllHaveUrl(existing) && AllHaveUrl(items) && items != []
    requires DedupAppend(existing, items[..|items| - 1]).Some?
    requires AllHaveUrl(DedupAppend(existing, items[..|items| - 1]).value)
    ensures DedupAppend(existing, items).Some?
    ensures forall w :: w in DedupAppend(existing, items[..|items| - 1]).value ==> w in DedupAppend(existing, items).value
    ensures HasUrl(DedupAppend(existing, items).value, items[|items| - 1].url.value)
  {
    var acc := DedupAppend(existing, items[..|items| - 1]).value;
    var last := items[|items| - 1];
    assert last in items;
    if ProbeUrl(acc, last.url) == Unseen {
      assert DedupAppend(existing, items).value == acc + [last];
      assert last in acc + [last];
    }
  }

  /** A batch whose urls are all stored already leaves the list as it is. */
  lemma {:induction false} DedupNoop(existing: seq<NewsItem>, items: seq<NewsItem>)
    requires AllHaveUrl(existing) && AllHaveUrl(items)
    requires forall x :: x in items ==> HasUrl(existing, x.url.value)
    ensures DedupAppend(existing, items) == Some(existing)
  {
    if items != [] {
      var init := items[..|items| - 1];
      assert forall x :: x in init ==> x in items;
      DedupNoop(existing, init);
      assert items[|items| - 1] in items;
    }
  }

  /** Saving the same batch a second time changes nothing. */
  lemma SaveNewsIdempotent(existing: seq<NewsItem>, items: seq<NewsItem>)
    requires AllHaveUrl(existing) && AllHaveUrl(items)
    ensures DedupAppend(existing, items).Some?
    ensures DedupAppend(DedupAppend(existing, items).value, items) == DedupAppend(existing, items)
  {
    DedupSucceeds(existing, items);
    DedupCoversUrls(existing, items);
    DedupNoop(DedupAppend(existing, items).value, items);
  }

  /** Duplicates inside one batch collapse: urls x/1, x/1, x/2 saved into an empty store give two records. */
  lemma BatchDuplicatesCollapse(a: NewsItem, b: NewsItem, c: NewsItem)
    requires a.url == Some("x/1") && b.url == Some("x/1") && c.url == Some("x/2")
    ensures DedupAppend([], [a, b, c]) == Some([a, c])
  {
    assert [a, b, c][..2] == [a, b];
    assert [a, b][..1] == [a];
    assert [a][..0] == [];
    assert DedupAppend([], [a]) == Some([a]);
    assert ProbeUrl([a], b.url) == Seen;
    assert DedupAppend([], [a, b]) == Some([a]);
    assert "x/1"[2] != "x/2"[2];
    assert ProbeUrl([a][1..], c.url) == Unseen;
    assert ProbeUrl([a], c.url) == Unseen;
    assert [a, b, c][2] == c;
    assert [a] + [c] == [a, c];
  }

  /** A stored record without a url makes any non-empty save fail. */
  lemma MissingStoredUrlFails(existing: seq<NewsItem>, x: NewsItem)
    requires existing != [] && existing[0].url.None?
    ensures DedupAppend(existing, [x]).None?
  {
    assert [x][..0] == [];
  }

  /** The url of a record, as a set element. */
  function UrlOf(x: NewsItem): Option<string> {
    x.url
  }

  /** With distinct stored urls, a save stores exactly one record per distinct url of the store and the batch. */
  lemma SaveNewsCount(existing: seq<NewsItem>, items: seq<NewsItem>)
    requires AllHaveUrl(existing) && AllHaveUrl(items) && UrlsDistinct(existing)
    ensures DedupAppend(existing, items).Some?
    ensures |DedupAppend(existing, items).value| == |KeySet(existing + items, UrlOf)|
  {
    DedupKeepsDistinct(existing, items);
    DedupCoversUrls(existing, items);
    var r := DedupAppend(existing, items).value;
    assert DistinctBy(r, UrlOf);
    DistinctKeyCount(r, UrlOf);
    forall u | u in KeySet(existing + items, UrlOf) ensures u in KeySet(r, UrlOf) {
      var x :| x in existing + items && UrlOf(x) == u;
      if x in existing {
        assert r[..|existing|] == existing;
        var i :| 0 <= i < |existing| && existing[i] == x;
        assert r[i] == x;
      } else {
        var w :| w in r && w.url == Some(x.url.value);
      }
    }
    forall u | u in KeySet(r, UrlOf) ensures u in KeySet(existing + items, UrlOf) {
      var x :| x in r && UrlOf(x) == u;
      assert x in existing + items;
    }
    assert KeySet(r, UrlOf) == KeySet(existing + items, UrlOf);
  }

  /**
   * `save_news` as written: it deduplicates into the growing list and then
   * calls `save_json(existing_news, "news_data")`, whose first parameter is the
   * collection name, so the `news_data` collection keeps what it held.
   * `accepted` is whether the file system takes the file named after the
   * list's text. That text holds every stored url, so any url with a '/'
   * (every http url) makes the name point into a missing directory and the
   * write fails. Returns the reported verdict and the collection afterwards.
   */
  function SaveNewsAsWritten(stored: seq<NewsItem>, items: seq<NewsItem>, accepted: bool): (r: (bool, seq<NewsItem>))
    ensures r.0 <==> DedupAppend(stored, items).Some? && accepted
    ensures r.1 == stored
  {
    (DedupAppend(stored, items).Some? && accepted, stored)
  }

  /**
   * As written, with realistic urls: the stray write is refused, so the save
   * is reported as failed and the collection keeps what it held, whatever the
   * batch.
   */
  lemma AsWrittenWriteRefused(stored: seq<NewsItem>, items: seq<NewsItem>)
    ensures !SaveNewsAsWritten(stored, items, false).0
    ensures SaveNewsAsWritten(stored, items, false).1 == stored
  {
  }

  /**
   * As written, when the list's text holds no '/' and the file system takes
   * it: a batch reported as saved is not found afterwards. A record whose url
   * the collection did not hold is still missing, and saving the same batch
   * again is reported as a success again.
   */
  lemma AsWrittenBatchLost(stored: seq<NewsItem>, items: seq<NewsItem>, x: NewsItem)
    requires AllHaveUrl(stored) && AllHaveUrl(items)
    requires x in items && !HasUrl(stored, x.url.value)
    ensures SaveNewsAsWritten(stored, items, true).0
    ensures !HasUrl(SaveNewsAsWritten(stored, items, true).1, x.url.value)
    ensures SaveNewsAsWritten(SaveNewsAsWritten(stored, items, true).1, items, true).0
  {
    DedupSucceeds(stored, items);
  }

  // ---------------------------------------------------------------- filters

  /** `[item for item in s if item.get("keyword") == keyword]`. */
  function OfKeyword(s: seq<NewsItem>, keyword: string): (r: seq<NewsItem>)
    ensures forall x :: x in r <==> x in s && x.keyword == Some(keyword)
  {
    Filter(s, (x: NewsItem) => x.keyword == Some(keyword))
  }

  /** `[item for item in s if item.get("platform_type") == platform_type]`. */
  function OfPlatformType(s: seq<NewsItem>, platformType: string): (r: seq<NewsItem>)
    ensures forall x :: x in r <==> x in s && x.platformType == Some(platformType)
  {
    Filter(s, (x: NewsItem) => x.platformType == Some(platformType))
  }

  /** Keyword filtering keeps stored order: it distributes over concatenation. */
  lemma OfKeywordKeepsOrder(a: seq<NewsItem>, b: seq<NewsItem>, keyword: string)
    ensures OfKeyword(a + b, keyword) == OfKeyword(a, keyword) + OfKeyword(b, keyword)
  {
    FilterConcat(a, b, (x: NewsItem) => x.keyword == Some(keyword));
  }

  /** Platform filtering keeps stored order: it distributes over concatenation. */
  lemma OfPlatformTypeKeepsOrder(a: seq<NewsItem>, b: seq<NewsItem>, platformType: string)
    ensures OfPlatformType(a + b, platformType) == OfPlatformType(a, platformType) + OfPlatformType(b, platformType)
  {
    FilterConcat(a, b, (x: NewsItem) => x.platformType == Some(platformType));
  }

  /**
   * `item.get("publish_time", "")` read as an instant: `None` for a missing
   * or empty value and for text `strptime` rejects.
   */
  function PublishedAt(x: NewsItem, parse: string -> Option<int>): (t: Option<int>)
    ensures x.publishTime.None? || x.publishTime == Some("") ==> t.None?
  {
    var pt := x.publishTime.GetOr("");
    if pt == "" then None else parse(pt)
  }

  /** A record published within `[start, end]`. */
  predicate InDateRange(x: NewsItem, parse: string -> Option<int>, start: int, end: int) {
    var t := PublishedAt(x, parse);
    t.Some? && start <= t.value <= end
  }

  /** The records `get_news_by_date_range` keeps, in stored order. */
  function PublishedWithin(s: seq<NewsItem>, parse: string -> Option<int>, start: int, end: int): (r: seq<NewsItem>)
    ensures forall x :: x in r <==> x in s && InDateRange(x, parse, start, end)
  {
    Filter(s, (x: NewsItem) => InDateRange(x, parse, start, end))
  }

  /** `any(tag in item_tags for tag in tags)`. */
  predicate SharesTag(x: NewsItem, tags: seq<string>) {
    exists t :: t in tags && t in x.tags
  }

  /** The records `get_news_by_tags` keeps, in stored order. */
  function Tagged(s: seq<NewsItem>, tags: seq<string>): (r: seq<NewsItem>)
    ensures forall x :: x in r <==> x in s && SharesTag(x, tags)
  {
    Filter(s, (x: NewsItem) => SharesTag(x, tags))
  }

  // ---------------------------------------------------------------- hot ranking

  /** The record with its `hot_score` written in. */
  function WithHotScore(x: NewsItem): (y: NewsItem)
    ensures y.hotScore == Some(HotScore(x)) && HotScore(y) == HotScore(x)
    ensures y.(hotScore := x.hotScore) == x
  {
    x.(hotScore := Some(HotScore(x)))
  }

  /** `x.get("hot_score", 0)`, the sort key. */
  function HotKey(x: NewsItem): int {
    x.hotScore.GetOr(0)
  }

  /** Every record with its heat written in, in stored order. */
  function Scored(s: seq<NewsItem>): (r: seq<NewsItem>)
    ensures |r| == |s|
    ensures forall i :: 0 <= i < |s| ==> r[i] == WithHotScore(s[i])
  {
    seq(|s|, i requires 0 <= i < |s| => WithHotScore(s[i]))
  }

  /**
   * `sorted(scored, key=hot_score, reverse=True)[:limit]`: records with their
   * heat, hottest first, at most `limit` of them (a negative limit drops
   * that many from the end, as Python's slice does).
   */
  function HotRanking(s: seq<NewsItem>, limit: int): (r: seq<NewsItem>)
    ensures limit >= 0 ==> |r| == (if limit <= |s| then limit else |s|)
    ensures forall x :: x in r ==> x.hotScore == Some(HotScore(x))
    ensures Descending(r, HotKey, IntBelow)
    ensures multiset(r) <= multiset(Scored(s))
    ensures forall x, y :: x in r && y in multiset(Scored(s)) - multiset(r) ==> HotKey(y) <= HotKey(x)
  {
    HotRankingProperties(s, limit);
    TakePy(SortDesc(Scored(s), HotKey, IntBelow), limit)
  }

  lemma HotRankingProperties(s: seq<NewsItem>, limit: int)
    ensures var r := TakePy(SortDesc(Scored(s), HotKey, IntBelow), limit);
      && (forall x :: x in r ==> x.hotScore == Some(HotScore(x)))
      && Descending(r, HotKey, IntBelow)
      && multiset(r) <= multiset(Scored(s))
      && (forall x, y :: x in r && y in multiset(Scored(s)) - multiset(r) ==> HotKey(y) <= HotKey(x))
  {
    var sorted := SortDesc(Scored(s), HotKey, IntBelow);
    IntBelowStrictOrder();
    SortDescDescending(Scored(s), HotKey, IntBelow);
    TakeDescending(sorted, limit, HotKey, IntBelow);
    TakeTop(sorted, limit, HotKey, IntBelow);
    var r := TakePy(sorted, limit);
    forall x | x in r ensures x.hotScore == Some(HotScore(x)) {
      assert x in multiset(Scored(s));
      ScoredCarriesScores(s, x);
    }
  }

  lemma ScoredCarriesScores(s: seq<NewsItem>, x: NewsItem)
    requires x in Scored(s)
    ensures x.hotScore == Some(HotScore(x))
  {
    var i :| 0 <= i < |s| && Scored(s)[i] == x;
  }

  /** Ties keep their stored order: among records of equal heat the ranking is the stored order. */
  lemma HotRankingStable(s: seq<NewsItem>, k: int)
    ensures WithKey(SortDesc(Scored(s), HotKey, IntBelow), HotKey, k) == WithKey(Scored(s), HotKey, k)
  {
    IntBelowStrictOrder();
    SortDescStable(Scored(s), HotKey, IntBelow, k);
  }

  /** A record with no counters but a positive read count outranks one with no counters at all. */
  lemma HotScoreWeights(x: NewsItem)
    ensures HotScore(x.(readCount := None, commentCount := None, likeCount := None, shareCount := None, forwardCount := None)) == 0
    ensures HotScore(x.(readCount := Some(1), commentCount := Some(1), likeCount := Some(1), shareCount := Some(1), forwardCount := Some(1))) == 14
  {
  }

  // ---------------------------------------------------------------- distributions

  /** `item.get("platform", "未知平台")` for each record. */
  function PlatformKeys(s: seq<NewsItem>): (r: seq<string>)
    ensures |r| == |s|
    ensures forall i :: 0 <= i < |s| ==> r[i] == s[i].platform.GetOr(UnknownPlatform)
  {
    seq(|s|, i requires 0 <= i < |s| => s[i].platform.GetOr(UnknownPlatform))
  }

  /** Every tag of every record, in order. */
  function TagKeys(s: seq<NewsItem>): seq<string> {
    if s == [] then [] else TagKeys(s[..|s| - 1]) + s[|s| - 1].tags
  }

  function TagCount(x: NewsItem): int {
    |x.tags|
  }

  /** The tag list has one entry per tag occurrence. */
  lemma {:induction false} TagKeysLength(s: seq<NewsItem>)
    ensures |TagKeys(s)| == SumBy(s, TagCount)
  {
    if s != [] {
      TagKeysLength(s[..|s| - 1]);
    }
  }

  /** Platform counts add up to the number of records. */
  lemma PlatformCountsTotal(s: seq<NewsItem>)
    ensures SumValues(Tally(PlatformKeys(s))) == |s|
  {
    TallyTotal(PlatformKeys(s));
  }

  /** Tag counts add up to the number of tag occurrences. */
  lemma TagCountsTotal(s: seq<NewsItem>)
    ensures SumValues(Tally(TagKeys(s))) == SumBy(s, TagCount)
  {
    TallyTotal(TagKeys(s));
    TagKeysLength(s);
  }

  /** A record without a platform is counted under "未知平台". */
  lemma MissingPlatformCountedUnknown(s: seq<NewsItem>, i: int)
    requires 0 <= i < |s| && s[i].platform.None?
    ensures UnknownPlatform in Tally(PlatformKeys(s))
    ensures Tally(PlatformKeys(s))[UnknownPlatform] >= 1
  {
    assert PlatformKeys(s)[i] == UnknownPlatform;
    assert UnknownPlatform in PlatformKeys(s);
  }

  // ---------------------------------------------------------------- interaction totals

  datatype Interactions = Interactions(read: int, comment: int, like: int, share: int, forward: int)

  /** Each of the five counters summed over the records. */
  function Totals(s: seq<NewsItem>): Interactions {
    Interactions(SumBy(s, ReadOf), SumBy(s, CommentOf), SumBy(s, LikeOf), SumBy(s, ShareOf), SumBy(s, ForwardOf))
  }

  /** The total heat of some records is the heat formula applied to their interaction totals. */
  lemma {:induction false} TotalHeatFromTotals(s: seq<NewsItem>)
    ensures var t := Totals(s);
      SumBy(s, HotScore) == t.read + 5 * t.comment + 2 * t.like + 3 * t.share + 3 * t.forward
  {
    if s != [] {
      TotalHeatFromTotals(s[..|s| - 1]);
    }
  }

  /** Totals of a concatenation add up, so splitting the records splits every total. */
  lemma TotalsSplit(a: seq<NewsItem>, b: seq<NewsItem>)
    ensures Totals(a + b).read == Totals(a).read + Totals(b).read
    ensures Totals(a + b).comment == Totals(a).comment + Totals(b).comment
    ensures Totals(a + b).like == Totals(a).like + Totals(b).like
    ensures Totals(a + b).share == Totals(a).share + Totals(b).share
    ensures Totals(a + b).forward == Totals(a).forward + Totals(b).forward
  {
    SumByConcat(a, b, ReadOf);
    SumByConcat(a, b, CommentOf);
    SumByConcat(a, b, LikeOf);
    SumByConcat(a, b, ShareOf);
    SumByConcat(a, b, ForwardOf);
  }

  // ---------------------------------------------------------------- earliest record

  /** The sort key of `get_earliest_news_by_keyword`: a missing time reads as the sentinel. */
  function SortTime(x: NewsItem, parse: string -> Option<int>): Option<int> {
    parse(x.publishTime.GetOr(LatestSentinel))
  }

  /**
   * `sorted(records, key=publish instant)[0]`: `None` for no records and when
   * any key fails to parse (the sort raises); otherwise the first record of
   * the earliest instant.
   */
  function Earliest(s: seq<NewsItem>, parse: string -> Option<int>): (r: Option<NewsItem>)
    ensures r.None? <==> s == [] || exists x :: x in s && SortTime(x, parse).None?
    ensures r.Some? ==> exists i :: 
      && 0 <= i < |s| && s[i] == r.value
      && (forall j :: 0 <= j < |s| ==> SortTime(s[i], parse).value <= SortTime(s[j], parse).value)
      && (forall j :: 0 <= j < i ==> SortTime(s[j], parse).value > SortTime(s[i], parse).value)
  {
    if s == [] then None
    else if exists x :: x in s && SortTime(x, parse).None? then None
    else
      assert forall j :: 0 <= j < |s| ==> SortTime(s[j], parse).Some? by {
        forall j | 0 <= j < |s| ensures SortTime(s[j], parse).Some? {
          assert s[j] in s;
        }
      }
      var i := FirstMinBy(s, (x: NewsItem) => SortTime(x, parse).GetOr(0));
      Some(s[i])
  }

  /** When the sentinel parses to a latest instant, a record with a publish time is preferred to one without. */
  lemma MissingTimeSortsLast(s: seq<NewsItem>, parse: string -> Option<int>, latest: int, i: int)
    requires parse(LatestSentinel) == Some(latest)
    requires forall x :: x in s && x.publishTime.Some? ==> SortTime(x, parse).Some? && SortTime(x, parse).value < latest
    requires 0 <= i < |s| && s[i].publishTime.Some?
    ensures Earliest(s, parse).Some?
    ensures Earliest(s, parse).value.publishTime.Some?
  {
    assert s[i] in s;
    assert SortTime(s[i], parse).value < latest;
  }

  /** The earliest record of a keyword is no later than any stored record of that keyword. */
  lemma EarliestOfKeyword(news: seq<NewsItem>, keyword: string, parse: string -> Option<int>)
    ensures var e := Earliest(OfKeyword(news, keyword), parse);
      e.Some? ==> forall y :: y in news && y.keyword == Some(keyword) ==> SortTime(e.value, parse).value <= SortTime(y, parse).value
  {
    var s := OfKeyword(news, keyword);
    var e := Earliest(s, parse);
    if e.Some? {
      forall y | y in news && y.keyword == Some(keyword) ensures SortTime(e.value, parse).value <= SortTime(y, parse).value {
        assert y in s;
        var j :| 0 <= j < |s| && s[j] == y;
      }
    }
  }

  // ---------------------------------------------------------------- per-day counts

  /** The calendar day of an instant. */
  function DayOf(t: int): int {
    t / SecondsPerDay
  }

  /** The day a record was published on, when its time is present and parses. */
  function PublishedDay(x: NewsItem, parse: string -> Option<int>): Option<int> {
    match PublishedAt(x, parse)
    case None => None
    case Some(t) => Some(DayOf(t))
  }

  /** How many records were published on day `d`. */
  function CountOnDay(s: seq<NewsItem>, parse: string -> Option<int>, d: int): (n: nat)
    ensures n <= |s|
  {
    if s == [] then 0
    else CountOnDay(s[..|s| - 1], parse, d) + (if PublishedDay(s[|s| - 1], parse) == Some(d) then 1 else 0)
  }

  /** One more record counted: only the day it was published on goes up, by one. */
  lemma CountOnDayStep(s: seq<NewsItem>, parse: string -> Option<int>, i: nat)
    requires i < |s|
    ensures forall d ::
              CountOnDay(s[..i + 1], parse, d)
              == CountOnDay(s[..i], parse, d) + (if PublishedDay(s[i], parse) == Some(d) then 1 else 0)
  {
    var pre := s[..i + 1];
    assert pre[..|pre| - 1] == s[..i];
    assert pre[|pre| - 1] == s[i];
  }

  /**
   * The per-day table: one entry for each of the `days + 1` days ending with
   * the day of `now`, holding the number of records published that day.
   */
  function DayTable(s: seq<NewsItem>, parse: string -> Option<int>, days: int, now: int): (m: map<int, int>)
    ensures forall d :: d in m <==> DayOf(now) - days <= d <= DayOf(now)
    ensures forall d :: d in m ==> m[d] == CountOnDay(s, parse, d)
  {
    map d | DayOf(now) - days <= d <= DayOf(now) :: CountOnDay(s, parse, d)
  }

  lemma DayShift(t: int, k: int)
    ensures DayOf(t + k * SecondsPerDay) == DayOf(t) + k
  {
  }

  /**
   * The day-count loops of `get_news_count_by_date` and of the trend chart:
   * seed a zero for each day from `now - days` to `now` in steps of a day,
   * then count every record whose day is already in the table; records with
   * no, empty or unparseable time are skipped one by one.
   */
  method CountByDay(s: seq<NewsItem>, parse: string -> Option<int>, days: int, now: int) returns (m: map<int, int>)
    ensures m == DayTable(s, parse, days, now)
  {
    var lo := DayOf(now) - days;
    m := map[];
    var current := now - days * SecondsPerDay;
    var j := 0;
    while current <= now
      invariant j >= 0 && current == now + (j - days) * SecondsPerDay
      invariant days >= 0 ==> j <= days + 1
      invariant days < 0 ==> j == 0
      invariant forall d :: d in m <==> lo <= d < lo + j
      invariant forall d :: d in m ==> m[d] == 0
      decreases now - current
    {
      DayShift(now, j - days);
      m := m[DayOf(current) := 0];
      current := current + SecondsPerDay;
      j := j + 1;
    }
    if days >= 0 {
      assert (j - days) * SecondsPerDay > 0;
      assert j == days + 1;
    }
    var i := 0;
    while i < |s|
      invariant 0 <= i <= |s|
      invariant forall d :: d in m <==> lo <= d <= DayOf(now)
      invariant forall d :: d in m ==> m[d] == CountOnDay(s[..i], parse, d)
    {
      var x := s[i];
      CountOnDayStep(s, parse, i);
      var pt := x.publishTime.GetOr("");
      if pt != "" {
        match parse(pt)
        case None =>
        case Some(t) =>
          if DayOf(t) in m {
            m := m[DayOf(t) := m[DayOf(t)] + 1];
          }
      }
      i := i + 1;
    }
    assert s[..i] == s;
  }

  /** The days `lo`, `lo + 1`, ..., `lo + n - 1`. */
  function DayRange(lo: int, n: nat): (r: set<int>)
    ensures forall d :: d in r <==> lo <= d < lo + n
    ensures |r| == n
  {
    if n == 0 then {} else DayRange(lo, n - 1) + {lo + n - 1}
  }

  /** The table of a non-negative range has exactly `days + 1` entries; a negative range gives an empty table. */
  lemma DayTableSize(s: seq<NewsItem>, parse: string -> Option<int>, days: int, now: int)
    ensures days >= 0 ==> |DayTable(s, parse, days, now).Keys| == days + 1
    ensures days < 0 ==> DayTable(s, parse, days, now) == map[]
  {
    var m := DayTable(s, parse, days, now);
    if days >= 0 {
      assert m.Keys == DayRange(DayOf(now) - days, days + 1);
    } else {
      assert m.Keys == {};
    }
  }

  /** Records published outside the range never add to any entry of the table. */
  lemma {:induction false} OutOfRangeIgnored(s: seq<NewsItem>, x: NewsItem, parse: string -> Option<int>, days: int, now: int)
    requires PublishedDay(x, parse).None? || !(DayOf(now) - days <= PublishedDay(x, parse).value <= DayOf(now))
    ensures DayTable(s + [x], parse, days, now) == DayTable(s, parse, days, now)
  {
    assert (s + [x])[..|s + [x]| - 1] == s;
  }

  // ---------------------------------------------------------------- the manager

  class NewsDataManager {
    /** The `news_data` collection. */
    var news: seq<NewsItem>

    constructor (initial: seq<NewsItem>)
      ensures news == initial
    {
      news := initial;
    }

    /**
     * `save_news`: appends each candidate whose url is not yet in the growing
     * list; a `KeyError` from the duplicate test abandons the save.
     */
    method SaveNews(items: seq<NewsItem>) returns (ok: bool)
      modifies this
      ensures ok <==> DedupAppend(old(news), items).Some?
      ensures ok ==> news == DedupAppend(old(news), items).value
      ensures !ok ==> news == old(news)
    {
      var acc := news;
      var i := 0;
      while i < |items|
        invariant 0 <= i <= |items|
        invariant DedupAppend(news, items[..i]) == Some(acc)
      {
        var item := items[i];
        assert items[..i + 1][..i] == items[..i];
        var probe := ProbeUrl(acc, item.url);
        if probe == Raised {
          DedupErrorSticks(news, items, i + 1);
          return false;
        }
        if probe == Unseen {
          acc := acc + [item];
        }
        i := i + 1;
      }
      assert items[..i] == items;
      news := acc;
      ok := true;
    }

    /** `get_news_by_keyword`: `OfKeyword` of the store, whose order `OfKeywordKeepsOrder` fixes. */
    function GetNewsByKeyword(keyword: string): (r: seq<NewsItem>)
      reads this
      ensures forall x :: x in r <==> x in news && x.keyword == Some(keyword)
    {
      OfKeyword(news, keyword)
    }

    /** `get_news_by_platform`: `OfPlatformType` of the store, whose order `OfPlatformTypeKeepsOrder` fixes. */
    function GetNewsByPlatform(platformType: string): (r: seq<NewsItem>)
      reads this
      ensures forall x :: x in r <==> x in news && x.platformType == Some(platformType)
    {
      OfPlatformType(news, platformType)
    }

    /** `get_news_by_date_range`: the loop that keeps records published within `[start, end]`. */
    method GetNewsByDateRange(start: int, end: int, parse: string -> Option<int>) returns (r: seq<NewsItem>)
      ensures r == PublishedWithin(news, parse, start, end)
      ensures forall x :: x in r <==> x in news && InDateRange(x, parse, start, end)
    {
      r := [];
      var i := 0;
      while i < |news|
        invariant 0 <= i <= |news|
        invariant r == PublishedWithin(news[..i], parse, start, end)
      {
        var x := news[i];
        assert news[..i + 1][..i] == news[..i];
        var pt := x.publishTime.GetOr("");
        if pt != "" {
          match parse(pt)
          case None =>
          case Some(t) =>
            if start <= t <= end {
              r := r + [x];
            }
        }
        i := i + 1;
      }
      assert news[..i] == news;
    }

    /** `get_news_by_tags`: the loop that keeps records sharing at least one tag. */
    method GetNewsByTags(tags: seq<string>) returns (r: seq<NewsItem>)
      ensures r == Tagged(news, tags)
      ensures forall x :: x in r <==> x in news && SharesTag(x, tags)
    {
      r := [];
      var i := 0;
      while i < |news|
        invariant 0 <= i <= |news|
        invariant r == Tagged(news[..i], tags)
      {
        var x := news[i];
        assert news[..i + 1][..i] == news[..i];
        if exists t :: t in tags && t in x.tags {
          r := r + [x];
        }
        i := i + 1;
      }
      assert news[..i] == news;
    }

    /** `get_hot_news`: writes each record's heat, then ranks hottest first and keeps `limit`. */
    method GetHotNews(limit: int) returns (r: seq<NewsItem>)
      ensures r == HotRanking(news, limit)
      ensures limit >= 0 ==> |r| == (if limit <= |news| then limit else |news|)
      ensures forall x :: x in r ==> x.hotScore == Some(HotScore(x))
      ensures Descending(r, HotKey, IntBelow)
      ensures multiset(r) <= multiset(Scored(news))
      ensures forall x, y :: x in r && y in multiset(Scored(news)) - multiset(r) ==> HotKey(y) <= HotKey(x)
    {
      var scored := news;
      var i := 0;
      while i < |scored|
        invariant 0 <= i <= |scored| == |news|
        invariant forall j :: 0 <= j < i ==> scored[j] == WithHotScore(news[j])
        invariant forall j :: i <= j < |scored| ==> scored[j] == news[j]
      {
        scored := scored[i := WithHotScore(scored[i])];
        i := i + 1;
      }
      assert scored == Scored(news);
      r := TakePy(SortDesc(scored, HotKey, IntBelow), limit);
    }

    /** `get_news_count_by_platform`. */
    method GetNewsCountByPlatform() returns (m: map<string, int>)
      ensures m == Tally(PlatformKeys(news))
      ensures SumValues(m) == |news|
    {
      m := CountKeys(PlatformKeys(news));
      PlatformCountsTotal(news);
    }

    /** `get_news_count_by_date`. */
    method GetNewsCountByDate(days: int, now: int, parse: string -> Option<int>) returns (m: map<int, int>)
      ensures m == DayTable(news, parse, days, now)
      ensures days >= 0 ==> |m.Keys| == days + 1
    {
      m := CountByDay(news, parse, days, now);
      DayTableSize(news, parse, days, now);
    }

    /** `get_earliest_news_by_keyword`. */
    function GetEarliestNewsByKeyword(keyword: string, parse: string -> Option<int>): (r: Option<NewsItem>)
      reads this
      ensures r.None? <==> OfKeyword(news, keyword) == [] || exists x :: x in OfKeyword(news, keyword) && SortTime(x, parse).None?
      ensures r.Some? ==> r.value in news && r.value.keyword == Some(keyword)
      ensures r.Some? ==> forall y :: y in news && y.keyword == Some(keyword) ==> SortTime(r.value, parse).value <= SortTime(y, parse).value
      ensures r.Some? ==> var s := OfKeyword(news, keyword);
        exists i :: 0 <= i < |s| && s[i] == r.value && forall j :: 0 <= j < i ==> SortTime(s[j], parse).value > SortTime(s[i], parse).value
    {
      EarliestOfKeyword(news, keyword, parse);
      Earliest(OfKeyword(news, keyword), parse)
    }

    /** `get_tag_distribution_by_keyword`. */
    method GetTagDistributionByKeyword(keyword: string) returns (m: map<string, int>)
      ensures m == Tally(TagKeys(OfKeyword(news, keyword)))
      ensures SumValues(m) == SumBy(OfKeyword(news, keyword), TagCount)
    {
      var list := OfKeyword(news, keyword);
      m := CountKeys(TagKeys(list));
      TagCountsTotal(list);
    }

    /** `get_platform_distribution_by_keyword`. */
    method GetPlatformDistributionByKeyword(keyword: string) returns (m: map<string, int>)
      ensures m == Tally(PlatformKeys(OfKeyword(news, keyword)))
      ensures SumValues(m) == |OfKeyword(news, keyword)|
    {
      var list := OfKeyword(news, keyword);
      m := CountKeys(PlatformKeys(list));
      PlatformCountsTotal(list);
    }

    /** `get_interaction_data_by_keyword`: five running totals over the keyword's records. */
    method GetInteractionDataByKeyword(keyword: string) returns (t: Interactions)
      ensures t == Totals(OfKeyword(news, keyword))
    {
      var list := OfKeyword(news, keyword);
      var read, comment, like, share, forward := 0, 0, 0, 0, 0;
      var i := 0;
      while i < |list|
        invariant 0 <= i <= |list|
        invariant Interactions(read, comment, like, share, forward) == Totals(list[..i])
      {
        var x := list[i];
        assert list[..i + 1][..i] == list[..i];
        read := read + Counter(x.readCount);
        comment := comment + Counter(x.commentCount);
        like := like + Counter(x.likeCount);
        share := share + Counter(x.shareCount);
        forward := forward + Counter(x.forwardCount);
        i := i + 1;
      }
      assert list[..i] == list;
      t := Interactions(read, comment, like, share, forward);
    }
  }
}
