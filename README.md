# News monitor: record keeping and analytics, modelled in Dafny

The news monitor collects news items about watched keywords from four
platforms (Tencent News, Toutiao, WeChat official accounts and Weibo),
stores them as JSON collections, and reports on them: hot rankings,
distributions, per-day counts, heat changes and a written conclusion.
This project models the logic beneath the file I/O, scraping, charts and
web routes:

- `Storage` is the generic collection layer (`FileStorage`). The files
  become an abstract map from collection name to a JSON-like `Value`. The
  class keeps that map as a field, and its methods reassign it the way
  load, modify and save do.
- `Keywords` is the keyword registry (`KeywordsManager`). It is a class
  over the list of keyword records, with add, delete and status update.
  It also holds the add exactly as written, with its swapped `save_json`
  arguments.
- `News` is the news record store (`NewsDataManager`):
  - url-deduplicating save;
  - filters by keyword, platform, tag and date range;
  - the hot-score ranking;
  - tag and platform distributions;
  - interaction totals;
  - per-day counts;
  - the earliest record.
- `Trend` is the heat and trend analysis (`TrendAnalyzer`):
  - four rolling windows;
  - change and change rate with the zero-denominator guard;
  - the five-way direction;
  - the trend chart's day table;
  - the origin summary;
  - the branching of the conclusion;
  - the `analyze_trend` guard.
- `Scraper` holds the crawler string helpers:
  - `extract_number`, `normalize_url` and the `get_html` prefix;
  - the link fix-ups;
  - the search result filters with their `limit`;
  - the Weibo title truncation.
- `App` holds the record logic of the web handlers:
  - the platform list (add, delete, status update);
  - the choice of platforms a crawl visits;
  - the order of the crawl's latest news;
  - the dashboard totals;
  - the dashboard's hot-news ranking.
- Shared helpers:
  - `Seqs`: filters, first-match search and Python's `s[:n]`;
  - `Ranking`: a stable descending sort, as `sorted(..., reverse=True)` is;
  - `Counting`: dictionary counters;
  - `Wrappers`: `Option`.

Timestamps are integer seconds. Parsing of `"%Y-%m-%d %H:%M:%S"` is a
parameter `parse: string -> Option<int>`, and the clock's `now` is a
parameter. A calendar day is `t / 86400`.

The copies under `news_monitor_beginner_guide/` have the same text and
the same line numbers as their originals under `news_monitor/`. Each
model below therefore stands for both copies. The table cites the
`news_monitor/` copy.

## Model

| member | source | states |
|---|---|---|
| Storage.FileStorage.LoadJson | news_monitor/storage.py:72-79 | a collection without a file yields the caller's default; otherwise the stored document |
| Storage.FileStorage.SaveJson | news_monitor/storage.py:50-54 | the named collection holds the data afterwards; every other collection is unchanged |
| Storage.FileStorage.AppendJson | news_monitor/storage.py:97-104 | succeeds iff the loaded document (a missing one counts as `[]`) is a list; then the collection becomes old list + [item]; otherwise nothing changes |
| Storage.FileStorage.UpdateJson | news_monitor/storage.py:123-139 | succeeds iff the document is a list of objects and some item matches; then `update` is merged into every matching item and the others are kept; otherwise nothing is written |
| Storage.FileStorage.DeleteJson | news_monitor/storage.py:157-170 | succeeds iff the document is a list, `item.get` does not raise and something matched; then exactly the non-matching items remain; otherwise nothing is written |
| Storage.FileStorage.FindJson | news_monitor/storage.py:187-194 | exactly the items whose every query pair equals `item.get(k)`; `[]` for a non-list document or a raising `item.get`; the result is `Found`, whose stored order `FoundKeepsOrder` states |
| Storage.EmptyQueryFindsAll | news_monitor/storage.py:193 | an empty query returns the whole list |
| Storage.NullQueryMatchesMissingKey | news_monitor/storage.py:131 | a pair `(k, None)` matches an object exactly when it lacks `k` or holds null there |
| Storage.FoundKeepsOrder | news_monitor/storage.py:193 | finding distributes over concatenation, so matches come back in stored order |
| Storage.MergeMatchingChangesOnlyMatches | news_monitor/storage.py:130-133 | a non-matching item is unchanged; a matching object gets the update's keys over its own |
| Storage.RemainingHasNoMatch | news_monitor/storage.py:164 | after a delete no remaining item matches the query |
| Storage.DeletePartitions | news_monitor/storage.py:163-166 | found and remaining items together number the original list, so the list shrinks iff something matched |
| Storage.SwappedSaveMissesCollection | news_monitor/storage.py:38 | a save with the list and the name swapped leaves the collection named by the name as it was |
| Keywords.FirstNamed | news_monitor/keywords_manager.py:168-171 | the position of the first record with the name, or the length when there is none |
| Keywords.WithoutName | news_monitor/keywords_manager.py:87 | keeps exactly the records with another name; the name no longer occurs |
| Keywords.StatusSet | news_monitor/keywords_manager.py:118-124 | only the first record with the name may change, and no record's name, category or creation time changes |
| Keywords.KeywordsManager.AddKeyword | news_monitor/keywords_manager.py:35-55 | succeeds iff the name is not registered; then one active record with the given category is appended; otherwise the list is unchanged; names stay distinct |
| Keywords.KeywordsManager.DeleteKeyword | news_monitor/keywords_manager.py:79-90 | succeeds iff the name is registered; then every record with that name is removed and the rest are kept; names stay distinct |
| Keywords.KeywordsManager.UpdateKeywordStatus | news_monitor/keywords_manager.py:115-131 | succeeds iff the name is registered; the first record with that name gets the new status and update time, and nothing else changes |
| Keywords.KeywordsManager.GetAllKeywords | news_monitor/keywords_manager.py:151 | the whole registry |
| Keywords.KeywordsManager.GetKeywordByName | news_monitor/keywords_manager.py:167-171 | None iff the name is absent; otherwise the first record with that name |
| Keywords.KeywordsManager.GetKeywordsByCategory | news_monitor/keywords_manager.py:188 | exactly the records of the category; stored order and multiplicity follow from `Seqs.FilterConcat` |
| Keywords.KeywordsManager.GetActiveKeywords | news_monitor/keywords_manager.py:202 | exactly the records whose status is "active"; stored order and multiplicity follow from `Seqs.FilterConcat` |
| Keywords.AddKeepsDistinct | news_monitor/keywords_manager.py:38-52 | appending an unregistered name keeps names pairwise distinct |
| Keywords.DeleteKeepsDistinct | news_monitor/keywords_manager.py:87 | deleting keeps names pairwise distinct |
| Keywords.StatusKeepsNames | news_monitor/keywords_manager.py:119-124 | a status update keeps names pairwise distinct |
| Keywords.SecondAddRefused | news_monitor/keywords_manager.py:38-40 | after a successful add the same name is registered, so adding it again is refused |
| Keywords.StatusTouchesOnlyNamed | news_monitor/keywords_manager.py:119-124 | records with other names are unchanged; with distinct names the named record gets exactly the new status and time |
| Keywords.SecondDeleteRefused | news_monitor/keywords_manager.py:82-87 | after a delete the name is absent, so deleting it again is refused |
| Keywords.AddKeywordAsWritten | news_monitor/keywords_manager.py:35-65 | as written: reports success iff the stored document is a list (or absent), every item is a dict, none carries the name, and the file system takes the stray file; a stored non-list or a non-dict item makes it fail; the `keywords` collection never changes |
| Keywords.AsWrittenDuplicateAccepted | news_monitor/keywords_manager.py:55 | as written, two adds of the same name into an empty registry are both reported as successes |
| News.ProbeUrl | news_monitor/data_manager.py:39 | `any(existing["url"] == item["url"] ...)` is false on an empty list and raises for a candidate without a url on a non-empty list; when every record has a url it is true iff some record has the candidate's url; it raises only when a url is missing |
| News.DedupAppend | news_monitor/data_manager.py:34-40 | on success the stored list is a prefix of the result, and every added record comes from the batch |
| News.DedupErrorSticks | news_monitor/data_manager.py:37-40 | a raising prefix of the batch makes the whole save raise |
| News.DedupSucceeds | news_monitor/data_manager.py:37-40 | when every record has a url, the save does not raise |
| News.DedupKeepsDistinct | news_monitor/data_manager.py:39-40 | pairwise distinct stored urls stay pairwise distinct |
| News.DedupCoversUrls | news_monitor/data_manager.py:39-40 | every url of the batch is present afterwards |
| News.DedupNoop | news_monitor/data_manager.py:39 | a batch whose urls are all stored changes nothing |
| News.SaveNewsIdempotent | news_monitor/data_manager.py:39 | saving the same batch twice gives what saving it once gives |
| News.BatchDuplicatesCollapse | news_monitor/data_manager.py:37-40 | records with urls x/1, x/1, x/2 into an empty store add exactly the first and the third |
| News.MissingStoredUrlFails | news_monitor/data_manager.py:39 | a stored first record without a url makes every non-empty save raise |
| News.SaveNewsCount | news_monitor/data_manager.py:37-40 | with distinct stored urls, the result holds one record per distinct url of store and batch |
| News.SaveNewsAsWritten | news_monitor/data_manager.py:34-50 | as written: reports success iff the dedup does not raise and the file system takes the stray file; the `news_data` collection never changes |
| News.AsWrittenWriteRefused | news_monitor/data_manager.py:43 | as written, when the stray file is refused (any url with '/' puts a missing directory into its name) the save reports failure and `news_data` keeps what it held |
| News.AsWrittenBatchLost | news_monitor/data_manager.py:43 | as written, when the stray file is taken (a list text without '/'), a record with a new url is reported as saved but is still missing, and the same save is reported as a success again |
| News.NewsDataManager.SaveNews | news_monitor/data_manager.py:34-43 | succeeds iff the dedup does not raise; the collection becomes the deduplicated list; otherwise nothing changes |
| News.OfKeyword | news_monitor/data_manager.py:80 | exactly the records whose keyword equals the argument |
| News.OfPlatformType | news_monitor/data_manager.py:97 | exactly the records whose platform type equals the argument |
| News.OfKeywordKeepsOrder | news_monitor/data_manager.py:80 | the keyword filter distributes over concatenation, so stored order is kept |
| News.OfPlatformTypeKeepsOrder | news_monitor/data_manager.py:97 | the platform filter keeps stored order in the same way |
| News.NewsDataManager.GetNewsByKeyword | news_monitor/data_manager.py:79-80 | exactly the stored records with the keyword; stored order through `News.OfKeywordKeepsOrder` |
| News.NewsDataManager.GetNewsByPlatform | news_monitor/data_manager.py:96-97 | exactly the stored records with the platform type; stored order through `News.OfPlatformTypeKeepsOrder` |
| News.PublishedAt | news_monitor/data_manager.py:119-121 | a missing or empty publish time gives no instant |
| News.PublishedWithin | news_monitor/data_manager.py:117-126 | exactly the records whose time parses and lies in [start, end] |
| News.NewsDataManager.GetNewsByDateRange | news_monitor/data_manager.py:114-128 | the loop keeps exactly the records dated inside the range, skipping unparseable ones |
| News.Tagged | news_monitor/data_manager.py:147-150 | exactly the records sharing at least one tag with the argument |
| News.NewsDataManager.GetNewsByTags | news_monitor/data_manager.py:144-152 | the loop keeps exactly the records sharing a tag |
| News.WithHotScore | news_monitor/data_manager.py:179-180 | the record gains `hot_score` = its heat, and nothing else changes |
| News.Scored | news_monitor/data_manager.py:171-180 | every record gets its own hot score, positions unchanged |
| News.HotRanking | news_monitor/data_manager.py:168-185 | min(limit, n) scored records (Python's slice for a negative limit), non-increasing by hot score, drawn from the scored list, and the hottest ones: no record left out scores above a kept one |
| News.HotRankingProperties | news_monitor/data_manager.py:183-185 | the same length, order, sub-multiset and top-`limit` facts, proved from the sort |
| News.HotRankingStable | news_monitor/data_manager.py:183 | records of equal hot score keep their stored order |
| News.HotScoreWeights | news_monitor/data_manager.py:172-179 | missing counters count 0; one of each counter scores 1+5+2+3+3 = 14 |
| News.NewsDataManager.GetHotNews | news_monitor/data_manager.py:168-185 | writes the scores, sorts descending and slices; length min(limit, n), non-increasing by score, drawn from the scored records, and no record left out scores above a kept one |
| News.PlatformKeys | news_monitor/data_manager.py:202 | one key per record: its platform, or "未知平台" when missing |
| News.TagKeysLength | news_monitor/data_manager.py:294-297 | the tag occurrences number the sum of the records' tag counts |
| News.PlatformCountsTotal | news_monitor/data_manager.py:201-203 | platform counts add up to the number of records |
| News.TagCountsTotal | news_monitor/data_manager.py:294-297 | tag counts add up to the total number of tag occurrences |
| News.MissingPlatformCountedUnknown | news_monitor/data_manager.py:319-320 | a record without a platform is counted under "未知平台" |
| News.NewsDataManager.GetNewsCountByPlatform | news_monitor/data_manager.py:198-205 | each platform key maps to its number of records; the counts add up to the number of records |
| News.NewsDataManager.GetTagDistributionByKeyword | news_monitor/data_manager.py:291-299 | each tag maps to its occurrences among the keyword's records; the counts add up to their tag total |
| News.NewsDataManager.GetPlatformDistributionByKeyword | news_monitor/data_manager.py:315-322 | each platform maps to its count among the keyword's records; the counts add up to their number |
| News.TotalHeatFromTotals | news_monitor/data_manager.py:340-358 | the summed hot scores equal read + 5 comment + 2 like + 3 share + 3 forward of the totals |
| News.TotalsSplit | news_monitor/data_manager.py:346-351 | each of the five totals adds up over concatenated record lists |
| News.NewsDataManager.GetInteractionDataByKeyword | news_monitor/data_manager.py:338-358 | the five-counter loop yields the totals of the keyword's records |
| News.Earliest | news_monitor/data_manager.py:266-275 | None for no records or any unparseable time (the sort raises); otherwise the first record of least sort time, a missing time counting as the far-future sentinel |
| News.MissingTimeSortsLast | news_monitor/data_manager.py:272 | when a dated record exists and dates precede the sentinel, the earliest record is a dated one |
| News.NewsDataManager.GetEarliestNewsByKeyword | news_monitor/data_manager.py:265-278 | None iff the keyword has no records or one of them has an unparseable sort time; otherwise one of its records, no later than any record of the keyword, and the first in stored order among those of its time |
| News.EarliestOfKeyword | news_monitor/data_manager.py:270-275 | the record `sorted(...)[0]` picks is no later than any stored record of the keyword |
| News.DayShift | news_monitor/data_manager.py:233 | moving an instant by k days moves its day index by k |
| News.CountOnDay | news_monitor/data_manager.py:236-244 | a day's count never exceeds the number of records |
| News.DayTable | news_monitor/data_manager.py:225-244 | keys are exactly the days from `now - days` to `now`; each holds the number of records on that day |
| News.DayRange | news_monitor/data_manager.py:229-233 | the seeded day keys: n consecutive days from the first |
| News.DayTableSize | news_monitor/data_manager.py:225-233 | days + 1 keys for a non-negative `days`, none for a negative one |
| News.OutOfRangeIgnored | news_monitor/data_manager.py:237-247 | a record that is undated, unparseable or outside the range does not change the table |
| News.CountByDay | news_monitor/data_manager.py:225-247 | the seeding loop and the counting loop produce exactly the day table |
| News.NewsDataManager.GetNewsCountByDate | news_monitor/data_manager.py:221-249 | the day table of all records, with days + 1 keys |
| Trend.CountIn | news_monitor/trend_analyzer.py:213-240 | a window count never exceeds the number of records |
| Trend.WindowNested | news_monitor/trend_analyzer.py:213-228 | the 24-hour count never exceeds the 7-day count |
| Trend.WindowsSplit | news_monitor/trend_analyzer.py:213-234 | the last window plus the previous one count exactly the records of the doubled window |
| Trend.FutureRecordCounted | news_monitor/trend_analyzer.py:215 | a future-dated record is in both recent windows and in neither previous one |
| Trend.Rate | news_monitor/trend_analyzer.py:244 | 0.0 without a previous window; otherwise rate × previous = change × 100 |
| Trend.RateCompare | news_monitor/trend_analyzer.py:244-257 | with a non-empty previous window, comparing the rate with a threshold is comparing change × 100 with threshold × previous |
| Trend.ClassifyMatchesCounts | news_monitor/trend_analyzer.py:251-260 | the direction of the rate agrees with the integer cross-multiplied cut-offs on the two counts |
| Trend.ClassifyBoundaries | news_monitor/trend_analyzer.py:251-260 | a rate of 50 is a slow rise, 20 and -20 are stable, -50 is a slow fall |
| Trend.Instants | news_monitor/trend_analyzer.py:215 | one parsed instant per record |
| Trend.HeatChangeOf | news_monitor/trend_analyzer.py:195-278 | the all-zero stable fallback for no records or any missing or unparseable time; otherwise changes and rates of both window pairs, and the direction of the 24-hour rate |
| Trend.HeatDirectionFromCounts | news_monitor/trend_analyzer.py:237-260 | the heat direction is decided by the two 24-hour window counts alone |
| Trend.HeatChangeBounds | news_monitor/trend_analyzer.py:243-247 | each change lies between minus and plus the number of records |
| Trend.FirstField | news_monitor/trend_analyzer.py:304 | `split(" ")[0]`: the longest space-free prefix |
| Trend.FirstFieldOfStamp | news_monitor/trend_analyzer.py:304 | the date part of "date time" is the date |
| Trend.OriginOf | news_monitor/trend_analyzer.py:293-318 | empty fields without an earliest record; otherwise that record, the date part of its time, its platform and three causes |
| Trend.Conclude | news_monitor/trend_analyzer.py:627-692 | each paragraph's choice is taken from the 24-hour rate, the direction or the sentiment counts |
| Trend.DayTrendAgreesWithDirection | news_monitor/trend_analyzer.py:639-648 | the 24-hour sentence matches the direction except at exactly -20 and -50, where it reports a fall one grade stronger |
| Trend.HeatLevelMatchesDirection | news_monitor/trend_analyzer.py:631-636 | "high" heat iff a sharp rise; "medium" iff a slow rise |
| Trend.TendencySymmetric | news_monitor/trend_analyzer.py:664-673 | swapping positive and negative counts swaps the tendency |
| Trend.AdviceFollowsTendency | news_monitor/trend_analyzer.py:664-692 | the warning goes with a negative lean, the amplification with a dominant positive; balanced iff the counts are equal |
| Trend.TrendAnalyzer.TrendChartCounts | news_monitor/trend_analyzer.py:122-142 | the chart's day table: days + 1 keys, each count bounded by the records |
| Trend.TrendAnalyzer.AnalyzeTrend | news_monitor/trend_analyzer.py:48-102 | nothing iff the keyword has no records; otherwise the day table, heat change, origin, distributions, totals and conclusion of its records |
| Scraper.Digits | news_monitor/news_scraper.py:138 | the digits of the text, in order |
| Scraper.ExtractNumber | news_monitor/news_scraper.py:134-141 | 0 for empty or digit-free text; otherwise the value of all digit runs joined |
| Scraper.DecimalText | news_monitor/app.py:170 | the decimal text of a number, whose value is the number |
| Scraper.ExtractNumberRoundTrip | news_monitor/news_scraper.py:138-140 | extracting from a number's decimal text gives the number back |
| Scraper.DigitsConcat | news_monitor/news_scraper.py:138 | digit extraction distributes over concatenation |
| Scraper.SeparatorIgnored | news_monitor/news_scraper.py:138-140 | a non-digit character between runs does not change the number |
| Scraper.ExtractNumberThousands | news_monitor/news_scraper.py:138-140 | "1,234" gives 1234 |
| Scraper.ExtractNumberTenThousands | news_monitor/news_scraper.py:138-140 | "1.2万" gives 12 |
| Scraper.Split | news_monitor/news_scraper.py:168 | `str.split(sep)`: at least one part, none containing the separator |
| Scraper.JoinSplit | news_monitor/news_scraper.py:168 | joining the parts of a split gives the text back |
| Scraper.Origin | news_monitor/news_scraper.py:168 | the first three "/"-parts of the base, rejoined, are a prefix of the base |
| Scraper.NormalizeUrl | news_monitor/news_scraper.py:158-172 | "" stays ""; an http url is kept; a "/" url is appended to the base's origin; any other url is joined to the base with "/" |
| Scraper.OriginOfHost | news_monitor/news_scraper.py:168 | the origin of "https://host" is itself |
| Scraper.OriginOfHostPath | news_monitor/news_scraper.py:168 | the origin of "https://host/path" is "https://host" |
| Scraper.NormalizeRootRelative | news_monitor/news_scraper.py:166-169 | a "/" link against "https://host[/path]" becomes "https://host" + link |
| Scraper.OriginKeepsScheme | news_monitor/news_scraper.py:168 | the origin of an http base still starts with "http" |
| Scraper.FetchUrl | news_monitor/news_scraper.py:49-50 | the fetched url starts with "http": kept if it did, else prefixed with "https://" |
| Scraper.FetchUrlIdempotent | news_monitor/news_scraper.py:49-50 | prefixing twice is prefixing once |
| Scraper.FixLink | news_monitor/news_scraper.py:239-240 | empty and http links are kept; "//" links get "https:"; others are normalised against the base |
| Scraper.FixLinkAbsolute | news_monitor/news_scraper.py:239-240 | against an http base every non-empty link ends up starting with "http" |
| Scraper.WeixinLink | news_monitor/news_scraper.py:545-546 | a non-empty relative link gets the Sogou WeChat host |
| Scraper.WeixinLinkAbsolute | news_monitor/news_scraper.py:545-546 | every non-empty WeChat link ends up absolute |
| Scraper.Results | news_monitor/news_scraper.py:220-252 | at most one result per item, each with a non-empty title and link, the keyword and the site's platform |
| Scraper.ResultLinksAbsolute | news_monitor/news_scraper.py:239-246 | every result link starts with "http" |
| Scraper.SearchKeyword | news_monitor/news_scraper.py:217-257 | the loop over `items[:limit]` yields the results of those items: at most `limit` of them, each with a title and link |
| Scraper.WeiboTitle | news_monitor/news_scraper.py:713 | the content when at most 30 characters; otherwise its first 30 characters and "..." |
| Scraper.WeiboTitleBounded | news_monitor/news_scraper.py:786 | a title has at most 33 characters and begins the content |
| Scraper.WeiboPosts | news_monitor/news_scraper.py:682-726 | at most one post per card, each with non-empty content and the truncated title |
| Scraper.WeiboSearchKeyword | news_monitor/news_scraper.py:679-731 | the loop over `items[:limit]` yields at most `limit` posts with content and a title of at most 33 characters |
| Seqs.TakePy | news_monitor/data_manager.py:185 | `s[:n]`: a prefix of min(n, len) elements, or len + n elements for a negative n |
| Ranking.SortDescDescending | news_monitor/data_manager.py:183 | the sort's result is non-increasing under a strict order |
| Ranking.SortDescStable | news_monitor/data_manager.py:183 | the sort keeps the original order among equal keys |
| Counting.CountKeys | news_monitor/data_manager.py:199-203 | the counting loop maps each key to its number of occurrences |
| Counting.TallyTotal | news_monitor/data_manager.py:199-203 | the counts add up to the number of keys |
| App.FirstWithId | news_monitor/app.py:208-209 | the position of the first platform with the id, or the length when there is none |
| App.RemoveAt | news_monitor/app.py:210 | `pop(i)`: the records before i stay, those after move down one |
| App.PlatformRegistry.AddPlatform | news_monitor/app.py:160-185 | succeeds iff the name is not present; then an active record with id "platform_" + (length + 1) is appended; otherwise nothing changes |
| App.PlatformRegistry.DeletePlatform | news_monitor/app.py:207-220 | succeeds iff some record has the id; then only the first such record is removed; otherwise nothing changes |
| App.PlatformRegistry.UpdatePlatformStatus | news_monitor/app.py:246-259 | succeeds iff some record has the id; then only the first such record gets the new status; otherwise nothing changes |
| App.UpdateTouchesFirstOnly | news_monitor/app.py:247-251 | every record other than the first with the id keeps its status, including later records with the same id |
| App.DeleteRemovesOne | news_monitor/app.py:208-212 | a delete removes exactly one record and keeps all others |
| App.IdRepeatsAfterDelete | news_monitor/app.py:170 | after deleting any record but the last, the next new id equals the last record's id |
| App.SecondPlatformAddRefused | news_monitor/app.py:160-167 | after an add the name is present, so adding it again is refused |
| App.ActivePlatforms | news_monitor/app.py:304 | exactly the platforms whose status is "active" |
| App.PlatformOfType | news_monitor/app.py:334-337 | the first active platform of the type (every earlier one has another type), or none when none has it |
| App.CrawlTargets | news_monitor/app.py:331-352 | at most one platform per selected type, each active, of a selected type and with a crawler |
| App.CrawlableKinds | news_monitor/app.py:331-352 | the selected types with a crawler and an active platform, in selection order |
| App.CrawlTargetsComplete | news_monitor/app.py:331-352 | nothing is missed: the targets are, one for one and in selection order, the first active platform of each selected type that has a crawler and an active platform |
| App.SelectCrawlTargets | news_monitor/app.py:303-352 | the loop over the selected types visits exactly the crawl targets, all active platforms of selected types |
| App.LatestNews | news_monitor/app.py:375-379 | the crawl's news, rearranged, newest publish-time string first |
| App.LatestNewsStable | news_monitor/app.py:375-379 | records with the same publish-time string keep their order |
| App.DashboardOf | news_monitor/app.py:431-451 | totals are the list lengths, each active count is the number of positions whose record has status "active", and total interactions sum read + comment + like + share |
| App.DashboardInteractionsFromTotals | news_monitor/app.py:445-451 | the dashboard's interactions are the read, comment, like and share totals added, without forwards |
| App.AllActiveIffCountsEqual | news_monitor/app.py:438 | the active count equals the total iff every platform is active |
| App.AppScoreVersusHotScore | news_monitor/app.py:547-551 | the dashboard's score is the store's hot score without the 3 share and 3 forward weights |
| App.AppHotNews | news_monitor/app.py:538-556 | mock data iff there are no records; otherwise min(limit, n) records, non-increasing by read + 5 comment + 2 like, drawn from the records, and no record left out scores above a kept one |
| App.AppHotNewsStable | news_monitor/app.py:545-553 | records of equal dashboard score keep their stored order |

## Left out

- File I/O and JSON text: files, `os.path.exists`, `json.dump`/`json.load` and directory creation. The store is a map from collection name to value. A failed write, and the exception paths of the I/O, are not modelled. The only exception is the file-system outcome of the swapped saves below.
- Network and browser fetching: `requests`, BeautifulSoup and Selenium. The parsed search items are inputs (`Candidate`, `WeiboCard`), and `extract_news_info` is not part of this model.
- Charts and word clouds: the matplotlib, seaborn, wordcloud and jieba rendering in `trend_analyzer.py`, and the chart paths in the report.
- Randomised mock data. This covers:
  - `analyze_sentiment`, whose counts are an input of `Trend.TrendAnalyzer.AnalyzeTrend`;
  - the random counts of the crawlers;
  - the mock news that `crawl_news` generates and saves, and its per-platform totals (`App.SelectCrawlTargets` models the platform choice only);
  - `generate_mock_hot_news`, which is the `MockHotNews` case of `App.AppHotNews`;
  - the random change figures of the dashboard;
  - the chart-data routes of `app.py`.
- Clock and calendar: `now` is a parameter, and `strptime` is the parameter `parse`. A calendar day is `t / 86400`, so time zones and `strftime` formatting are not modelled.
- Trend.Conclude: decides on the exact 24-hour rate, while the source decides on the rate already rounded to two decimals (`round` at trend_analyzer.py:264). The two differ only for rates within 0.005 of a cut-off. The rounded rates in the returned dictionary are exact reals here.
- Scraper.ExtractNumber: `\d` also matches non-ASCII decimal digits in Python. The model counts only '0'-'9'.
- Python `==` across types (`1 == True`, `1 == 1.0`) is not modelled: `Value` equality is structural.
- Records are typed. A keyword, platform or news record is a datatype with its known fields. Missing optional fields are `Option`, and the model does not cover records of another shape (a stored `url` of another type, tags that are not a list).
- Scraper.Results: the Weixin crawler's extra `account` field (news_scraper.py:537-538, 554) is not part of `SearchResult`; the other fields are the same for the three sites.
- Web layer and logging: FastAPI routing, templates, redirects, `main.js` and the `logger.py` files.

## Findings

| source | as written | input that shows it | evidently intended | confidence | as-written member | corrected member |
|---|---|---|---|---|---|---|
| news_monitor/keywords_manager.py:55 | `self.storage.save_json(keywords, self.keywords_file)` passes the list as the collection name and "keywords" as the data (delete and status update at lines 90 and 131 do the same) | an empty registry, then `add_keyword("AI")` twice: both calls report success when the stray file can be written, and the registry stays empty | `save_json(self.keywords_file, keywords)`, so that the new list replaces the `keywords` collection | high; not executed | Keywords.AddKeywordAsWritten, Keywords.AsWrittenDuplicateAccepted | Keywords.KeywordsManager.AddKeyword, Keywords.SecondAddRefused |
| news_monitor/data_manager.py:43 | `self.storage.save_json(existing_news, self.news_file)` passes the list as the collection name and "news_data" as the data | an empty store and a batch with one record of url "https://a.cn/1": the list's text holds the '/', so the stray file cannot be opened, save_news returns False and `news_data` stays empty; every later save fails the same way. With a url without '/' such as "a1" it returns True, `news_data` still stays empty, and the same batch is accepted again | `save_json(self.news_file, existing_news)`, so that the deduplicated list replaces the `news_data` collection | high; not executed | News.SaveNewsAsWritten, News.AsWrittenWriteRefused, News.AsWrittenBatchLost | News.NewsDataManager.SaveNews, News.SaveNewsIdempotent |
