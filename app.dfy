/**
 * The record logic inside the web handlers: the platform list (add,
 * delete, status update), the selection of platforms a crawl visits, the
 * ordering of the crawl's latest news, the dashboard totals and the
 * dashboard's hot-news ranking.
 */
module App {
  import opened Wrappers
  import opened Seqs
  import opened Ranking
  import opened News
  import Keywords
  import Scraper

  /** One record of the `platforms` collection; `kind` is its "type" field. */
  datatype Platform = Platform(id: string, name: string, kind: string, status: string, createdAt: string)

  predicate HasPlatformName(ps: seq<Platform>, name: string) {
    exists p :: p in ps && p.name == name
  }

  predicate HasPlatformId(ps: seq<Platform>, id: string) {
    exists p :: p in ps && p.id == id
  }

  /** `f"platform_{len(platforms) + 1}"`. */
  function NewPlatformId(ps: seq<Platform>): string {
    "platform_" + Scraper.DecimalText(|ps| + 1)
  }

  /** Position of the first record with the id, or `|ps|` when there is none. */
  function FirstWithId(ps: seq<Platform>, id: string): (i: nat)
    ensures i <= |ps|
    ensures i < |ps| ==> ps[i].id == id
    ensures forall j :: 0 <= j < i ==> ps[j].id != id
    ensures i == |ps| <==> !HasPlatformId(ps, id)
  {
    FirstIndex(ps, (p: Platform) => p.id == id)
  }

  /** The list without the record at `i`: what `platforms.pop(i)` leaves. */
  function RemoveAt(ps: seq<Platform>, i: nat): (r: seq<Platform>)
    requires i < |ps|
    ensures |r| == |ps| - 1
    ensures forall j :: 0 <= j < i ==> r[j] == ps[j]
    ensures forall j :: i <= j < |r| ==> r[j] == ps[j + 1]
  {
    ps[..i] + ps[i + 1..]
  }

  class PlatformRegistry {
    /** The `platforms` collection. */
    var platforms: seq<Platform>

    constructor (initial: seq<Platform>)
      ensures platforms == initial
    {
      platforms := initial;
    }

    /**
     * `add_platform`: refuses a name already present; otherwise appends an
     * active record whose id is derived from the list's length.
     */
    method AddPlatform(name: string, kind: string, stamp: string) returns (ok: bool)
      modifies this
      ensures ok <==> !HasPlatformName(old(platforms), name)
      ensures ok ==> platforms == old(platforms) + [Platform(NewPlatformId(old(platforms)), name, kind, "active", stamp)]
      ensures !ok ==> platforms == old(platforms)
    {
      var i := 0;
      while i < |platforms|
        invariant 0 <= i <= |platforms|
        invariant forall j :: 0 <= j < i ==> platforms[j].name != name
      {
        if platforms[i].name == name {
          assert platforms[i] in platforms;
          return false;
        }
        i := i + 1;
      }
      assert !HasPlatformName(platforms, name) by {
        forall p | p in platforms ensures p.name != name {
          var j :| 0 <= j < |platforms| && platforms[j] == p;
        }
      }
      platforms := platforms + [Platform(NewPlatformId(platforms), name, kind, "active", stamp)];
      ok := true;
    }

    /** `delete_platform`: removes the first record with the id; an unknown id saves nothing. */
    method DeletePlatform(id: string) returns (ok: bool)
      modifies this
      ensures ok <==> HasPlatformId(old(platforms), id)
      ensures ok ==> platforms == RemoveAt(old(platforms), FirstWithId(old(platforms), id))
      ensures !ok ==> platforms == old(platforms)
    {
      var i := 0;
      while i < |platforms|
        invariant 0 <= i <= |platforms|
        invariant forall j :: 0 <= j < i ==> platforms[j].id != id
      {
        if platforms[i].id == id {
          assert i == FirstWithId(platforms, id);
          platforms := RemoveAt(platforms, i);
          return true;
        }
        i := i + 1;
      }
      assert FirstWithId(platforms, id) == |platforms|;
      ok := false;
    }

    /** `update_platform_status`: sets the status of the first record with the id only. */
    method UpdatePlatformStatus(id: string, status: string) returns (ok: bool)
      modifies this
      ensures ok <==> HasPlatformId(old(platforms), id)
      ensures ok ==> var i := FirstWithId(old(platforms), id);
        platforms == old(platforms)[i := old(platforms)[i].(status := status)]
      ensures !ok ==> platforms == old(platforms)
    {
      var i := 0;
      while i < |platforms|
        invariant 0 <= i <= |platforms|
        invariant forall j :: 0 <= j < i ==> platforms[j].id != id
      {
        if platforms[i].id == id {
          assert i == FirstWithId(platforms, id);
          platforms := platforms[i := platforms[i].(status := status)];
          return true;
        }
        i := i + 1;
      }
      assert FirstWithId(platforms, id) == |platforms|;
      ok := false;
    }
  }

  /** A later record keeps its status when an earlier one with the same id is updated. */
  lemma UpdateTouchesFirstOnly(ps: seq<Platform>, id: string, status: string, j: int)
    requires HasPlatformId(ps, id)
    requires 0 <= j < |ps| && j != FirstWithId(ps, id)
    ensures ps[FirstWithId(ps, id) := ps[FirstWithId(ps, id)].(status := status)][j] == ps[j]
  {
  }

  /** Deleting by id keeps every other record, in order, and removes only one record with that id. */
  lemma DeleteRemovesOne(ps: seq<Platform>, id: string)
    requires HasPlatformId(ps, id)
    ensures var r := RemoveAt(ps, FirstWithId(ps, id));
      multiset(r) + multiset{ps[FirstWithId(ps, id)]} == multiset(ps)
  {
    var i := FirstWithId(ps, id);
    assert ps == ps[..i] + [ps[i]] + ps[i + 1..];
  }

  /**
   * Ids are not checked for uniqueness: after deleting any record but the
   * last, adding a platform reuses the id the last record got when it was
   * added.
   */
  lemma IdRepeatsAfterDelete(ps: seq<Platform>, i: nat)
    requires |ps| >= 2 && i < |ps| - 1
    requires ps[|ps| - 1].id == NewPlatformId(ps[..|ps| - 1])
    ensures NewPlatformId(RemoveAt(ps, i)) == ps[|ps| - 1].id
    ensures HasPlatformId(RemoveAt(ps, i), NewPlatformId(RemoveAt(ps, i)))
  {
    var r := RemoveAt(ps, i);
    assert r[|r| - 1] == ps[|ps| - 1];
    assert r[|r| - 1] in r;
  }

  /** A second add of the same name is refused. */
  lemma SecondPlatformAddRefused(ps: seq<Platform>, name: string, kind: string, stamp: string)
    ensures HasPlatformName(ps + [Platform(NewPlatformId(ps), name, kind, "active", stamp)], name)
  {
    var p := Platform(NewPlatformId(ps), name, kind, "active", stamp);
    assert p in ps + [p];
  }

  // ---------------------------------------------------------------- crawl_news

  /** `p.get("status") == "active"`. */
  predicate IsActive(p: Platform) {
    p.status == "active"
  }

  /** `[p for p in platforms if p.get("status") == "active"]`. */
  function ActivePlatforms(ps: seq<Platform>): (r: seq<Platform>)
    ensures forall p :: p in r <==> p in ps && p.status == "active"
  {
    Filter(ps, IsActive)
  }

  /** The platform types a crawler exists for. */
  const CrawlerTypes: set<string> := {"tencent", "toutiao", "weixin", "weibo"}

  /** The first active platform of a type, as `next((p for p in active if ...), None)` finds it. */
  function PlatformOfType(active: seq<Platform>, kind: string): (r: Option<Platform>)
    ensures r.None? <==> forall p :: p in active ==> p.kind != kind
    ensures r.Some? ==> r.value in active && r.value.kind == kind
    ensures r.Some? ==> exists i :: 0 <= i < |active| && active[i] == r.value && forall j :: 0 <= j < i ==> active[j].kind != kind
  {
    var i := FirstIndex(active, (p: Platform) => p.kind == kind);
    if i < |active| then Some(active[i]) else None
  }

  /** The platforms a crawl visits for the selected types, in selection order. */
  function CrawlTargets(active: seq<Platform>, selected: seq<string>): (r: seq<Platform>)
    ensures |r| <= |selected|
    ensures forall p :: p in r ==> p in active && p.kind in selected && p.kind in CrawlerTypes
  {
    if selected == [] then []
    else
      var rest := CrawlTargets(active, selected[..|selected| - 1]);
      var kind := selected[|selected| - 1];
      match PlatformOfType(active, kind)
      case None => rest
      case Some(p) => if kind in CrawlerTypes then rest + [p] else rest
  }

  /** A selected type the crawl visits: it has a crawler and an active platform. */
  predicate Crawlable(active: seq<Platform>, kind: string) {
    kind in CrawlerTypes && PlatformOfType(active, kind).Some?
  }

  /** The selected types the crawl visits, in selection order. */
  function CrawlableKinds(active: seq<Platform>, selected: seq<string>): (kinds: seq<string>)
    ensures forall k :: k in kinds <==> k in selected && Crawlable(active, k)
  {
    Filter(selected, (k: string) => Crawlable(active, k))
  }

  /**
   * Nothing is missed: the crawl visits, for every selected type that has a
   * crawler and an active platform, that type's first active platform, in
   * selection order, and nothing else.
   */
  lemma {:induction false} CrawlTargetsComplete(active: seq<Platform>, selected: seq<string>)
    ensures |CrawlTargets(active, selected)| == |CrawlableKinds(active, selected)|
    ensures forall i :: 0 <= i < |CrawlableKinds(active, selected)| ==>
              PlatformOfType(active, CrawlableKinds(active, selected)[i]) == Some(CrawlTargets(active, selected)[i])
  {
    if selected != [] {
      var init, kind := selected[..|selected| - 1], selected[|selected| - 1];
      CrawlTargetsComplete(active, init);
      var kinds, kinds0 := CrawlableKinds(active, selected), CrawlableKinds(active, init);
      var targets, targets0 := CrawlTargets(active, selected), CrawlTargets(active, init);
      if Crawlable(active, kind) {
        assert kinds == kinds0 + [kind];
        assert targets == targets0 + [PlatformOfType(active, kind).value];
      } else {
        assert kinds == kinds0;
        assert targets == targets0;
      }
    }
  }

  /**
   * The platform loop of `crawl_news`: for each selected type, the first
   * active platform of that type, skipping types without one and types
   * without a crawler. The mock results drawn for each are left out.
   */
  method SelectCrawlTargets(platforms: seq<Platform>, selected: seq<string>) returns (targets: seq<Platform>)
    ensures targets == CrawlTargets(ActivePlatforms(platforms), selected)
    ensures forall p :: p in targets ==> p in platforms && p.status == "active" && p.kind in selected
  {
    var active := ActivePlatforms(platforms);
    targets := [];
    var i := 0;
    while i < |selected|
      invariant 0 <= i <= |selected|
      invariant targets == CrawlTargets(active, selected[..i])
    {
      var kind := selected[i];
      assert selected[..i + 1][..i] == selected[..i];
      var info := PlatformOfType(active, kind);
      if info.Some? && kind in CrawlerTypes {
        targets := targets + [info.value];
      }
      i := i + 1;
    }
    assert selected[..i] == selected;
  }

  /** `x.get("publish_time", "")`, the key the latest news are ordered by. */
  function PublishText(x: NewsItem): string {
    x.publishTime.GetOr("")
  }

  /** The crawl's latest news, newest publish-time string first, ties in collection order. */
  function LatestNews(items: seq<NewsItem>): (r: seq<NewsItem>)
    ensures multiset(r) == multiset(items)
    ensures Descending(r, PublishText, LexLess)
  {
    LexLessStrictOrder();
    SortDescDescending(items, PublishText, LexLess);
    SortDesc(items, PublishText, LexLess)
  }

  /** Records with the same publish time keep their collection order. */
  lemma LatestNewsStable(items: seq<NewsItem>, t: string)
    ensures WithKey(LatestNews(items), PublishText, t) == WithKey(items, PublishText, t)
  {
    LexLessStrictOrder();
    SortDescStable(items, PublishText, LexLess, t);
  }

  // ---------------------------------------------------------------- dashboard

  /** The dashboard's engagement of a record: read + comment + like + share (forwards are not counted). */
  function Engagement(x: NewsItem): int {
    ReadOf(x) + CommentOf(x) + LikeOf(x) + ShareOf(x)
  }

  datatype DashboardStats = DashboardStats(
    totalKeywords: int, activeKeywords: int, totalPlatforms: int, activePlatforms: int,
    totalNews: int, totalInteractions: int)

  /** `get_dashboard_stats` without its two random change figures. */
  function DashboardOf(keywords: seq<Keywords.Keyword>, platforms: seq<Platform>, news: seq<NewsItem>): (d: DashboardStats)
    ensures d.totalKeywords == |keywords| && d.totalPlatforms == |platforms| && d.totalNews == |news|
    ensures 0 <= d.activeKeywords <= d.totalKeywords && 0 <= d.activePlatforms <= d.totalPlatforms
    ensures d.activeKeywords == |Positions(keywords, Keywords.IsActive)|
    ensures d.activePlatforms == |Positions(platforms, IsActive)|
    ensures d.totalInteractions == SumBy(news, Engagement)
  {
    FilterCountsPositions(keywords, Keywords.IsActive);
    FilterCountsPositions(platforms, IsActive);
    DashboardStats(|keywords|, |Filter(keywords, Keywords.IsActive)|,
                   |platforms|, |ActivePlatforms(platforms)|, |news|, SumBy(news, Engagement))
  }

  /** The dashboard's interaction total is the sum of four of the five interaction totals. */
  lemma {:induction false} DashboardInteractionsFromTotals(news: seq<NewsItem>)
    ensures var t := Totals(news);
      SumBy(news, Engagement) == t.read + t.comment + t.like + t.share
  {
    if news != [] {
      DashboardInteractionsFromTotals(news[..|news| - 1]);
    }
  }

  /** Every platform counts as active exactly when all of them have status "active". */
  lemma AllActiveIffCountsEqual(ps: seq<Platform>)
    ensures |ActivePlatforms(ps)| == |ps| <==> forall p :: p in ps ==> p.status == "active"
  {
    FilterShorter(ps, IsActive);
  }

  // ---------------------------------------------------------------- dashboard hot news

  /** The dashboard's interaction score: read + 5 comment + 2 like. */
  function AppScore(x: NewsItem): int {
    ReadOf(x) + 5 * CommentOf(x) + 2 * LikeOf(x)
  }

  /** The two heat formulas differ exactly by the share and forward weights. */
  lemma AppScoreVersusHotScore(x: NewsItem)
    ensures HotScore(x) == AppScore(x) + 3 * ShareOf(x) + 3 * ForwardOf(x)
    ensures ShareOf(x) >= 0 && ForwardOf(x) >= 0 ==> AppScore(x) <= HotScore(x)
  {
  }

  /** What the dashboard's `get_hot_news` returns: mock records when there is no news, else a ranking. */
  datatype HotList = MockHotNews | Ranked(items: seq<NewsItem>)

  /**
   * `get_hot_news` of the dashboard: mock data without records; otherwise
   * the records by descending score, ties in stored order, the first
   * `limit` of them.
   */
  function AppHotNews(news: seq<NewsItem>, limit: int): (r: HotList)
    ensures news == [] <==> r == MockHotNews
    ensures r.Ranked? && limit >= 0 ==> |r.items| == (if limit <= |news| then limit else |news|)
    ensures r.Ranked? ==> Descending(r.items, AppScore, IntBelow) && multiset(r.items) <= multiset(news)
    ensures r.Ranked? ==> forall x, y :: x in r.items && y in multiset(news) - multiset(r.items) ==> AppScore(y) <= AppScore(x)
  {
    if news == [] then MockHotNews
    else
      var sorted := SortDesc(news, AppScore, IntBelow);
      IntBelowStrictOrder();
      SortDescDescending(news, AppScore, IntBelow);
      TakeDescending(sorted, limit, AppScore, IntBelow);
      TakeTop(sorted, limit, AppScore, IntBelow);
      Ranked(TakePy(sorted, limit))
  }

  /** Records of equal score keep their stored order in the dashboard ranking. */
  lemma AppHotNewsStable(news: seq<NewsItem>, k: int)
    ensures WithKey(SortDesc(news, AppScore, IntBelow), AppScore, k) == WithKey(news, AppScore, k)
  {
    IntBelowStrictOrder();
    SortDescStable(news, AppScore, IntBelow, k);
  }
}
