/**
 * The string helpers of the crawlers: `extract_number`, `normalize_url`, the
 * link fix-ups and title truncation inside each `search_keyword`, and the
 * rule that a search keeps at most `limit` results. Fetching and HTML
 * parsing are outside the model: a search works on the candidates the page
 * yielded, one per result element, in page order.
 */
module Scraper {
  import opened Wrappers
  import opened Seqs

  predicate StartsWith(s: string, prefix: string) {
    |prefix| <= |s| && s[..|prefix|] == prefix
  }

  // ---------------------------------------------------------------- extract_number

  predicate IsDigit(c: char) {
    '0' <= c <= '9'
  }

  /** The characters `re.findall(r'\d+', text)` returns, joined. */
  function Digits(text: string): (r: string)
    ensures forall c :: c in r ==> IsDigit(c)
    ensures |r| <= |text|
  {
    if text == [] then []
    else Digits(text[..|text| - 1]) + (if IsDigit(text[|text| - 1]) then [text[|text| - 1]] else [])
  }

  /** `int(digits)` for a string of decimal digits. */
  function DecimalValue(digits: string): (n: nat)
    requires forall c :: c in digits ==> IsDigit(c)
  {
    if digits == [] then 0
    else
      assert forall c :: c in digits[..|digits| - 1] ==> c in digits;
      assert digits[|digits| - 1] in digits;
      assert IsDigit(digits[|digits| - 1]);
      DecimalValue(digits[..|digits| - 1]) * 10 + (digits[|digits| - 1] as int - '0' as int)
  }

  /**
   * `extract_number`: 0 for empty text and for text without digits,
   * otherwise the number spelled by all its digits run together.
   */
  function ExtractNumber(text: string): (n: nat)
    ensures text == "" ==> n == 0
    ensures Digits(text) == [] ==> n == 0
    ensures Digits(text) != [] ==> n == DecimalValue(Digits(text))
  {
    if text == "" then 0
    else
      var ds := Digits(text);
      if ds == [] then 0 else DecimalValue(ds)
  }

  /** The decimal spelling of a natural number, without leading zeros. */
  function DecimalText(n: nat): (s: string)
    ensures |s| > 0
    ensures forall c :: c in s ==> IsDigit(c)
    ensures DecimalValue(s) == n
  {
    var d := [('0' as int + n % 10) as char];
    if n < 10 then
      assert d[..0] == [];
      d
    else
      var s := DecimalText(n / 10) + d;
      assert s[..|s| - 1] == DecimalText(n / 10);
      s
  }

  /** Digits of digit-only text are the text itself. */
  lemma {:induction false} DigitsOfDigits(s: string)
    requires forall c :: c in s ==> IsDigit(c)
    ensures Digits(s) == s
  {
    if s != [] {
      var init, last := s[..|s| - 1], s[|s| - 1];
      assert s == init + [last];
      assert forall c :: c in init ==> c in s;
      DigitsOfDigits(init);
      assert last in s;
      DigitsSnoc(init, last);
    }
  }

  /** Reading a number back from its decimal spelling gives the number. */
  lemma ExtractNumberRoundTrip(n: nat)
    ensures ExtractNumber(DecimalText(n)) == n
  {
    DigitsOfDigits(DecimalText(n));
  }

  /** Digits distribute over concatenation. */
  lemma {:induction false} DigitsConcat(a: string, b: string)
    ensures Digits(a + b) == Digits(a) + Digits(b)
    decreases |b|
  {
    if b == [] {
      assert a + b == a;
    } else {
      assert (a + b)[..|a + b| - 1] == a + b[..|b| - 1];
      DigitsConcat(a, b[..|b| - 1]);
    }
  }

  /** A separator such as ',' or '.' between digits is ignored. */
  lemma SeparatorIgnored(a: string, c: char, b: string)
    requires !IsDigit(c)
    ensures ExtractNumber(a + [c] + b) == ExtractNumber(a + b)
  {
    SeparatorDropped(a, c, b);
  }

  /** The digits of text with a non-digit inserted are the digits without it. */
  lemma SeparatorDropped(a: string, c: char, b: string)
    requires !IsDigit(c)
    ensures Digits(a + [c] + b) == Digits(a + b)
  {
    DigitsConcat(a + [c], b);
    DigitsSnoc(a, c);
    DigitsConcat(a, b);
  }

  /** Appending one character appends it to the digits exactly when it is a digit. */
  lemma DigitsSnoc(a: string, c: char)
    ensures Digits(a + [c]) == Digits(a) + (if IsDigit(c) then [c] else [])
  {
    assert (a + [c])[..|a|] == a;
  }

  lemma DecimalValueOf12()
    ensures DecimalValue("12") == 12
  {
    assert "1"[..0] == "";
    assert "12"[..1] == "1";
  }

  lemma DecimalValueOf1234()
    ensures DecimalValue("1234") == 1234
  {
    DecimalValueOf12();
    assert "123"[..2] == "12";
    assert "1234"[..3] == "123";
  }

  /** "1,234" reads as 1234. */
  lemma ExtractNumberThousands()
    ensures ExtractNumber("1,234") == 1234
  {
    assert "1,234" == "1" + [','] + "234";
    SeparatorDropped("1", ',', "234");
    assert "1" + "234" == "1234";
    assert Digits("1,234") == Digits("1234");
    DigitsOfDigits("1234");
    DecimalValueOf1234();
  }

  /** "1.2万" reads as 12: the fraction's digit is appended, the unit dropped. */
  lemma ExtractNumberTenThousands()
    ensures ExtractNumber("1.2万") == 12
  {
    DigitsOfTenThousands();
    DecimalValueOf12();
  }

  lemma DigitsOfTenThousands()
    ensures Digits("1.2万") == "12"
  {
    DigitsAroundPoint('1', '2', '万');
  }

  /** A digit, a point, a digit and a unit keep just the two digits. */
  lemma DigitsAroundPoint(a: char, b: char, u: char)
    requires IsDigit(a) && IsDigit(b) && !IsDigit(u)
    ensures Digits([a, '.', b, u]) == [a, b]
  {
    assert [a][..0] == [];
    assert Digits([a]) == [a];
    assert [a, '.'][..1] == [a];
    assert Digits([a, '.']) == [a];
    assert [a, '.', b][..2] == [a, '.'];
    assert Digits([a, '.', b]) == [a, b];
    assert [a, '.', b, u][..3] == [a, '.', b];
  }

  // ---------------------------------------------------------------- normalize_url

  /** Position of the first `sep` in `s`, or `|s|` when there is none. */
  function SepIndex(s: string, sep: char): (i: nat)
    ensures i <= |s|
    ensures i < |s| ==> s[i] == sep
    ensures forall j :: 0 <= j < i ==> s[j] != sep
  {
    FirstIndex(s, c => c == sep)
  }

  /** `s.split(sep)`: always at least one part; the parts never contain `sep`. */
  function Split(s: string, sep: char): (parts: seq<string>)
    ensures |parts| >= 1
    ensures forall p :: p in parts ==> sep !in p
    decreases |s|
  {
    var i := SepIndex(s, sep);
    if i == |s| then [s]
    else [s[..i]] + Split(s[i + 1..], sep)
  }

  /** `sep.join(parts)`. */
  function Join(parts: seq<string>, sep: char): string {
    if parts == [] then ""
    else if |parts| == 1 then parts[0]
    else parts[0] + [sep] + Join(parts[1..], sep)
  }

  /** Splitting and joining again gives back the text. */
  lemma {:induction false} JoinSplit(s: string, sep: char)
    ensures Join(Split(s, sep), sep) == s
    decreases |s|
  {
    var i := SepIndex(s, sep);
    if i < |s| {
      var head, rest := s[..i], s[i + 1..];
      var tail := Split(rest, sep);
      assert Split(s, sep) == [head] + tail;
      JoinSplit(rest, sep);
      JoinCons(head, tail, sep);
      assert s == head + [sep] + rest;
    }
  }

  /** Joining a part in front of at least one more puts the separator between them. */
  lemma JoinCons(head: string, tail: seq<string>, sep: char)
    requires |tail| >= 1
    ensures Join([head] + tail, sep) == head + [sep] + Join(tail, sep)
  {
    assert ([head] + tail)[1..] == tail;
  }

  /** Joining the first parts gives a prefix of joining them all. */
  lemma {:induction false} JoinPrefix(parts: seq<string>, k: nat, sep: char)
    requires 1 <= k <= |parts|
    ensures StartsWith(Join(parts, sep), Join(parts[..k], sep))
    ensures StartsWith(Join(parts[..k], sep), parts[0])
  {
    if k > 1 {
      JoinPrefix(parts[1..], k - 1, sep);
      assert parts[..k][1..] == parts[1..][..k - 1];
    }
  }

  /** `'/'.join(base_url.split('/')[:3])`: scheme and host of the base url. */
  function Origin(base: string): (d: string)
    ensures StartsWith(base, d)
  {
    var parts := Split(base, '/');
    JoinSplit(base, '/');
    JoinPrefix(parts, if |parts| < 3 then |parts| else 3, '/');
    Join(TakePy(parts, 3), '/')
  }

  /** `normalize_url(url, base_url)`. */
  function NormalizeUrl(url: string, base: string): (r: string)
    ensures url == "" ==> r == ""
    ensures url != "" && StartsWith(url, "http") ==> r == url
    ensures url != "" && !StartsWith(url, "http") && StartsWith(url, "/") ==> r == Origin(base) + url
    ensures url != "" && !StartsWith(url, "http") && !StartsWith(url, "/") ==> r == base + "/" + url
  {
    if url == "" then ""
    else if StartsWith(url, "http") then url
    else if StartsWith(url, "/") then Origin(base) + url
    else base + "/" + url
  }

  /** Text without the separator is a single part. */
  lemma SplitNone(s: string, sep: char)
    requires sep !in s
    ensures Split(s, sep) == [s]
  {
  }

  /** Text up to the first separator is the first part; splitting goes on after it. */
  lemma SplitAt(pre: string, sep: char, rest: string)
    requires sep !in pre
    ensures Split(pre + [sep] + rest, sep) == [pre] + Split(rest, sep)
  {
    var s := pre + [sep] + rest;
    var i := SepIndex(s, sep);
    assert s[|pre|] == sep;
    assert forall j :: 0 <= j < |pre| ==> s[j] == pre[j];
    assert i == |pre|;
    assert s[..i] == pre && s[i + 1..] == rest;
  }

  /** The parts of "https://" + rest are "https:", "" and the parts of rest. */
  lemma SplitHttps(rest: string)
    ensures Split("https://" + rest, '/') == ["https:", ""] + Split(rest, '/')
  {
    var tail := "" + ['/'] + rest;
    assert "https://" + rest == "https:" + ['/'] + tail;
    assert '/' !in "https:";
    SplitAt("https:", '/', tail);
    SplitAt("", '/', rest);
    assert ["https:"] + ([""] + Split(rest, '/')) == ["https:", ""] + Split(rest, '/');
  }

  /** Joining "https:", "" and a host gives "https://" + host. */
  lemma JoinHttps(host: string)
    ensures Join(["https:", "", host], '/') == "https://" + host
  {
    var parts := ["https:", "", host];
    assert parts[1..] == ["", host] && parts[1..][1..] == [host];
    assert Join([host], '/') == host;
    assert Join(["", host], '/') == "" + ['/'] + host;
  }

  /** The origin of "https://" + host is the whole url. */
  lemma OriginOfHost(host: string)
    requires '/' !in host
    ensures Origin("https://" + host) == "https://" + host
  {
    SplitHttps(host);
    SplitNone(host, '/');
    JoinHttps(host);
    assert ["https:", ""] + [host] == ["https:", "", host];
    assert Split("https://" + host, '/') == ["https:", "", host];
    assert TakePy(["https:", "", host], 3) == ["https:", "", host];
  }

  /** The origin of "https://" + host + "/" + path drops the path. */
  lemma OriginOfHostPath(host: string, path: string)
    requires '/' !in host
    ensures Origin("https://" + host + "/" + path) == "https://" + host
  {
    assert "https://" + host + "/" + path == "https://" + (host + ['/'] + path);
    SplitHttps(host + ['/'] + path);
    SplitAt(host, '/', path);
    var parts := ["https:", ""] + ([host] + Split(path, '/'));
    assert Split("https://" + host + "/" + path, '/') == parts;
    assert TakePy(parts, 3) == ["https:", "", host];
    JoinHttps(host);
  }

  /** A root-relative link is put on the base url's scheme and host: "/a" against "https://news.qq.com" gives "https://news.qq.com/a". */
  lemma NormalizeRootRelative(host: string, path: string, link: string)
    requires '/' !in host
    requires StartsWith(link, "/")
    ensures NormalizeUrl(link, "https://" + host + "/" + path) == "https://" + host + link
    ensures NormalizeUrl(link, "https://" + host) == "https://" + host + link
  {
    OriginOfHost(host);
    OriginOfHostPath(host, path);
    assert !StartsWith(link, "http") by { assert link[0] == '/'; }
  }

  /** The first part of an http url is its scheme, which starts with "http". */
  lemma SchemePart(base: string)
    requires StartsWith(base, "http")
    ensures StartsWith(Split(base, '/')[0], "http")
  {
    var i := SepIndex(base, '/');
    assert forall j :: 0 <= j < 4 ==> base[j] == "http"[j];
    assert i >= 4;
    assert Split(base, '/')[0] == base[..i];
  }

  /** The origin of an http base url starts with "http" too. */
  lemma OriginKeepsScheme(base: string)
    requires StartsWith(base, "http")
    ensures StartsWith(Origin(base), "http")
  {
    var parts := Split(base, '/');
    var k := if |parts| < 3 then |parts| else 3;
    JoinPrefix(parts, k, '/');
    SchemePart(base);
    assert TakePy(parts, 3) == parts[..k];
  }

  // ---------------------------------------------------------------- link fix-ups

  /** `get_html`: a url not starting with "http" gets "https://" in front. */
  function FetchUrl(url: string): (r: string)
    ensures StartsWith(r, "http")
    ensures StartsWith(url, "http") ==> r == url
    ensures !StartsWith(url, "http") ==> r == "https://" + url
  {
    if StartsWith(url, "http") then url
    else
      assert ("https://" + url)[..4] == "http";
      "https://" + url
  }

  /** Fixing the url a second time changes nothing. */
  lemma FetchUrlIdempotent(url: string)
    ensures FetchUrl(FetchUrl(url)) == FetchUrl(url)
  {
  }

  /** Tencent and Toutiao: a protocol-relative link gets "https:", any other relative link is normalised. */
  function FixLink(link: string, base: string): (r: string)
    ensures link == "" || StartsWith(link, "http") ==> r == link
    ensures link != "" && !StartsWith(link, "http") && StartsWith(link, "//") ==> r == "https:" + link
    ensures link != "" && !StartsWith(link, "http") && !StartsWith(link, "//") ==> r == NormalizeUrl(link, base)
  {
    if link != "" && !StartsWith(link, "http") then
      (if StartsWith(link, "//") then "https:" + link else NormalizeUrl(link, base))
    else link
  }

  /** With an http base, every non-empty link comes out absolute. */
  lemma FixLinkAbsolute(link: string, base: string)
    requires StartsWith(base, "http") && link != ""
    ensures StartsWith(FixLink(link, base), "http")
  {
    if !StartsWith(link, "http") {
      if StartsWith(link, "//") {
        assert ("https:" + link)[..4] == "http";
      } else if StartsWith(link, "/") {
        OriginKeepsScheme(base);
        assert (Origin(base) + link)[..4] == Origin(base)[..4];
      } else {
        assert (base + "/" + link)[..4] == base[..4];
      }
    }
  }

  const WeixinHost: string := "https://weixin.sogou.com"

  /** Weixin: a relative link is taken to be on the Sogou host. */
  function WeixinLink(link: string): (r: string)
    ensures link == "" || StartsWith(link, "http") ==> r == link
    ensures link != "" && !StartsWith(link, "http") ==> r == WeixinHost + link
  {
    if link != "" && !StartsWith(link, "http") then WeixinHost + link else link
  }

  /** A fixed Weixin link that is not empty is absolute. */
  lemma WeixinLinkAbsolute(link: string)
    requires link != ""
    ensures StartsWith(WeixinLink(link), "http")
  {
    if !StartsWith(link, "http") {
      assert (WeixinHost + link)[..4] == "http";
    }
  }

  // ---------------------------------------------------------------- search results

  /** The three sites searched through Sogou, with their base url and platform labels. */
  datatype Site = Tencent | Toutiao | Weixin {
    function BaseUrl(): string {
      match this
      case Tencent => "https://news.qq.com"
      case Toutiao => "https://www.toutiao.com"
      case Weixin => "https://mp.weixin.qq.com"
    }
    function Platform(): string {
      match this
      case Tencent => "腾讯新闻"
      case Toutiao => "今日头条"
      case Weixin => "微信公众号"
    }
    function PlatformType(): string {
      match this
      case Tencent => "tencent"
      case Toutiao => "toutiao"
      case Weixin => "weixin"
    }
  }

  /** One result element of a search page: its title text (None when the title element is missing), href, summary and time. */
  datatype Candidate = Candidate(title: Option<string>, href: string, summary: string, publishTime: string)

  datatype SearchResult = SearchResult(
    title: string, url: string, summary: string, publishTime: string,
    platform: string, platformType: string, keyword: string)

  /** The link a site records for an href. */
  function SiteLink(site: Site, href: string): string {
    if site == Weixin then WeixinLink(href) else FixLink(href, site.BaseUrl())
  }

  /** The result a candidate yields, if it has a title element, a non-empty title and a non-empty link. */
  function ResultOf(site: Site, keyword: string, c: Candidate): Option<SearchResult> {
    if c.title.None? then None
    else
      var link := SiteLink(site, c.href);
      if c.title.value != "" && link != "" then
        Some(SearchResult(c.title.value, link, c.summary, c.publishTime, site.Platform(), site.PlatformType(), keyword))
      else None
  }

  /** The results of the candidates, in order. */
  function Results(site: Site, keyword: string, cs: seq<Candidate>): (r: seq<SearchResult>)
    ensures |r| <= |cs|
    ensures forall x :: x in r ==> x.title != "" && x.url != "" && x.keyword == keyword && x.platform == site.Platform()
  {
    if cs == [] then []
    else
      var rest := Results(site, keyword, cs[..|cs| - 1]);
      match ResultOf(site, keyword, cs[|cs| - 1])
      case None => rest
      case Some(x) => rest + [x]
  }

  /** One more candidate: its result, if any, is appended. */
  lemma ResultsStep(site: Site, keyword: string, cs: seq<Candidate>, i: nat)
    requires i < |cs|
    ensures Results(site, keyword, cs[..i + 1])
         == Results(site, keyword, cs[..i]) + (match ResultOf(site, keyword, cs[i]) case None => [] case Some(x) => [x])
  {
    var pre := cs[..i + 1];
    assert pre[..|pre| - 1] == cs[..i];
    assert pre[|pre| - 1] == cs[i];
  }

  /** Every kept result's link is absolute. */
  lemma {:induction false} ResultLinksAbsolute(site: Site, keyword: string, cs: seq<Candidate>)
    ensures forall x :: x in Results(site, keyword, cs) ==> StartsWith(x.url, "http")
  {
    if cs != [] {
      ResultLinksAbsolute(site, keyword, cs[..|cs| - 1]);
      var c := cs[|cs| - 1];
      if c.href != "" {
        if site == Weixin {
          WeixinLinkAbsolute(c.href);
        } else {
          FixLinkAbsolute(c.href, site.BaseUrl());
        }
      }
    }
  }

  /**
   * `search_keyword` of the Tencent, Toutiao and Weixin crawlers once the page
   * is parsed: walks `items[:limit]` and keeps each candidate with a title
   * and a link.
   */
  method SearchKeyword(site: Site, keyword: string, items: seq<Candidate>, limit: int) returns (results: seq<SearchResult>)
    ensures results == Results(site, keyword, TakePy(items, limit))
    ensures limit >= 0 ==> |results| <= limit
    ensures |results| <= |items|
    ensures forall x :: x in results ==> x.title != "" && x.url != ""
  {
    var window := TakePy(items, limit);
    results := [];
    var i := 0;
    while i < |window|
      invariant 0 <= i <= |window|
      invariant results == Results(site, keyword, window[..i])
    {
      var c := window[i];
      ResultsStep(site, keyword, window, i);
      if c.title.Some? {
        var title := c.title.value;
        var link := c.href;
        if link != "" && !StartsWith(link, "http") {
          if site == Weixin {
            link := WeixinHost + link;
          } else {
            link := if StartsWith(link, "//") then "https:" + link else NormalizeUrl(link, site.BaseUrl());
          }
        }
        assert link == SiteLink(site, c.href);
        if title != "" && link != "" {
          results := results + [SearchResult(title, link, c.summary, c.publishTime, site.Platform(), site.PlatformType(), keyword)];
        }
      }
      i := i + 1;
    }
    assert window[..i] == window;
  }

  // ---------------------------------------------------------------- Weibo

  /** A Weibo title: the content itself up to 30 characters, else its first 30 characters and "...". */
  function WeiboTitle(content: string): (t: string)
    ensures |content| <= 30 ==> t == content
    ensures |content| > 30 ==> |t| == 33 && t[..30] == content[..30] && t[30..] == "..."
  {
    if |content| > 30 then content[..30] + "..." else content
  }

  /** A title is never longer than 33 characters and always starts like the content. */
  lemma WeiboTitleBounded(content: string)
    ensures |WeiboTitle(content)| <= 33
    ensures |content| > 30 ==> StartsWith(content, WeiboTitle(content)[..30])
    ensures |content| <= 30 ==> StartsWith(content, WeiboTitle(content))
  {
  }

  /**
   * One `.card-wrap` element: its text, user, time and link, the texts of
   * the like, forward and comment elements (None when missing), and the two
   * random draws the crawler stores as read and share counts.
   */
  datatype WeiboCard = WeiboCard(
    content: string, user: string, publishTime: string, link: string,
    likeText: Option<string>, forwardText: Option<string>, commentText: Option<string>,
    readDraw: int, shareDraw: int)

  datatype WeiboPost = WeiboPost(
    title: string, content: string, url: string, user: string, publishTime: string, keyword: string,
    likeCount: nat, forwardCount: nat, commentCount: nat, readCount: int, shareCount: int)

  /** A counter read from an element's text, or 0 without the element. */
  function CountFrom(text: Option<string>): nat {
    match text
    case None => 0
    case Some(t) => ExtractNumber(t)
  }

  function WeiboPostOf(keyword: string, c: WeiboCard): WeiboPost {
    WeiboPost(WeiboTitle(c.content), c.content, c.link, c.user, c.publishTime, keyword,
              CountFrom(c.likeText), CountFrom(c.forwardText), CountFrom(c.commentText), c.readDraw, c.shareDraw)
  }

  /** The posts of the cards with non-empty content, in order. */
  function WeiboPosts(keyword: string, cs: seq<WeiboCard>): (r: seq<WeiboPost>)
    ensures |r| <= |cs|
    ensures forall p :: p in r ==> p.content != "" && p.title == WeiboTitle(p.content)
  {
    if cs == [] then []
    else
      var rest := WeiboPosts(keyword, cs[..|cs| - 1]);
      var c := cs[|cs| - 1];
      if c.content != "" then rest + [WeiboPostOf(keyword, c)] else rest
  }

  /** `WeiboCrawler.search_keyword` once the page is loaded: walks `items[:limit]` keeping cards with content. */
  method WeiboSearchKeyword(keyword: string, items: seq<WeiboCard>, limit: int) returns (results: seq<WeiboPost>)
    ensures results == WeiboPosts(keyword, TakePy(items, limit))
    ensures limit >= 0 ==> |results| <= limit
    ensures forall p :: p in results ==> p.content != "" && |p.title| <= 33
  {
    var window := TakePy(items, limit);
    results := [];
    var i := 0;
    while i < |window|
      invariant 0 <= i <= |window|
      invariant results == WeiboPosts(keyword, window[..i])
    {
      var c := window[i];
      assert window[..i + 1][..i] == window[..i];
      if c.content != "" {
        results := results + [WeiboPostOf(keyword, c)];
      }
      i := i + 1;
    }
    assert window[..i] == window;
    forall p | p in results ensures |p.title| <= 33 {
      WeiboTitleBounded(p.content);
    }
  }
}
