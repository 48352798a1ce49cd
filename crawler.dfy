/**
 * The crawl engine of backend/crawler.py (`EnhancedWebCrawler`): the
 * robots gate, per-host pacing, the per-URL fetch guard, link extraction,
 * the bounded queue, subdomain probing, the choice between sitemap-based and
 * manual crawling, and the batch loop.
 *
 * The network is the oracle of the sitemap model (GET responses and HEAD
 * statuses). Batches are run one URL after another. The clock, the memory
 * samples of `psutil` and the md5 digest are parameters.
 */
module Crawler {
  import opened Wrappers
  import opened Text
  import opened Urls
  import opened Sitemap
  import opened Summarizer

  /** `CrawlResult`, with its `metadata` dictionary spread into fields; `error` is always None. */
  datatype CrawlResult = CrawlResult(
    url: string,
    title: string,
    content: string,
    summary: string,
    domain: string,
    statusCode: int,
    contentType: string,
    contentLength: nat,
    crawlMethod: string,
    crawlTime: real,
    contentHash: string,
    wordCount: nat,
    links: seq<string>)

  function Elems(xs: seq<string>): set<string>
  {
    set x | x in xs
  }

  function Max(a: int, b: int): int { if a < b then b else a }

  // ------------------------------------------------------------ resource monitor

  /**
   * `ResourceMonitor.check_memory_usage`: `rss` is the resident set size in
   * bytes, None when psutil raises, in which case the check passes.
   */
  function MemoryOk(rss: Option<nat>, maxMemoryMb: int): (ok: bool)
    ensures rss.None? ==> ok
    ensures rss.Some? ==> (ok <==> rss.value < maxMemoryMb * 1048576)
  {
    match rss
    case None => true
    case Some(bytes) => (bytes as real) / 1024.0 / 1024.0 < maxMemoryMb as real
  }

  // ------------------------------------------------------------ robots gate

  function RobotsUrl(host: string): string { "https://" + host + "/robots.txt" }

  /**
   * The crawler's own robots rule: a host is closed when its robots.txt is
   * fetched with status 200 and contains both "User-agent: *" and
   * "Disallow: /" anywhere. Any other status, or a failed request, leaves
   * it open.
   */
  predicate RobotsAllows(net: Network, host: string)
  {
    var robots := RobotsUrl(host);
    !(robots in net.get && net.get[robots].status == 200
      && Contains(net.get[robots].body, "User-agent: *")
      && Contains(net.get[robots].body, "Disallow: /"))
  }

  /** The memo after asking about `host`: a known host is never asked again. */
  function RobotsMemo(cache: map<string, bool>, net: Network, host: string): (r: map<string, bool>)
    ensures r.Keys == cache.Keys + {host}
    ensures forall h :: h in cache ==> r[h] == cache[h]
  {
    if host in cache then cache else cache[host := RobotsAllows(net, host)]
  }

  /** Every memoised answer is the one the network gives. */
  predicate RobotsSound(cache: map<string, bool>, net: Network)
  {
    forall h :: h in cache ==> cache[h] == RobotsAllows(net, h)
  }

  lemma RobotsMemoSound(cache: map<string, bool>, net: Network, host: string)
    requires RobotsSound(cache, net)
    ensures RobotsSound(RobotsMemo(cache, net, host), net)
    ensures RobotsMemo(cache, net, host)[host] == RobotsAllows(net, host)
  {
  }

  lemma {:induction false} ContainsPrefix(s: string, p: string, q: string)
    requires Contains(s, p + q)
    ensures Contains(s, p)
  {
    var i := ContainsWitness(s, p + q);
    assert s[i..i + |p|] == (p + q)[..|p|] == p;
    ContainsAt(s, p, i);
  }

  /**
   * The rule is coarse: a robots.txt for all agents that disallows only
   * "/private" closes the whole host, since "Disallow: /" is a substring.
   */
  lemma DisallowAnyPathClosesHost(net: Network, host: string)
    requires RobotsUrl(host) in net.get && net.get[RobotsUrl(host)].status == 200
    requires Contains(net.get[RobotsUrl(host)].body, "User-agent: *")
    requires Contains(net.get[RobotsUrl(host)].body, "Disallow: /private")
    ensures !RobotsAllows(net, host)
  {
    assert "Disallow: /private" == "Disallow: /" + "private";
    ContainsPrefix(net.get[RobotsUrl(host)].body, "Disallow: /", "private");
  }

  // ------------------------------------------------------------ pacing

  /**
   * When the request to `host` goes out: at `now`, or, when the previous
   * request to that host was less than `delay` ago, after sleeping until
   * `delay` has passed.
   */
  function RequestTime(last: map<string, real>, host: string, now: real, delay: real): (t: real)
    ensures t >= now
    ensures host in last ==> t >= last[host] + delay
    ensures host in last && now - last[host] >= delay ==> t == now
  {
    if host in last && now - last[host] < delay then last[host] + delay else now
  }

  // ------------------------------------------------------------ links

  /** The test `_extract_links` applies to one resolved anchor of a page on `pageHost`. */
  predicate Keeps(pageHost: string, u: string)
  {
    Parse(u).Ok? && KeepLink(pageHost, Parse(u).value, u)
  }

  predicate AllParse(anchors: seq<string>)
  {
    forall k :: 0 <= k < |anchors| ==> Parse(anchors[k]).Ok?
  }

  /**
   * The links `_extract_links` keeps from the page's anchors (already
   * resolved against the page URL), in document order; Err when `urlparse`
   * raises on one of them.
   */
  function KeptLinks(anchors: seq<string>, pageHost: string): (r: Result<seq<string>, ParseError>)
    ensures r.Ok? <==> AllParse(anchors)
  {
    if anchors == [] then Ok([])
    else match Parse(anchors[0])
      case Err(e) => Err(e)
      case Ok(p) =>
        match KeptLinks(anchors[1..], pageHost)
        case Err(e) => Err(e)
        case Ok(rest) =>
          assert forall k :: 1 <= k < |anchors| ==> anchors[k] == anchors[1..][k - 1];
          Ok(if KeepLink(pageHost, p, anchors[0]) then [anchors[0]] + rest else rest)
  }

  /** The kept links are exactly the anchors that pass the test. */
  lemma {:induction false} KeptLinksMembers(anchors: seq<string>, pageHost: string)
    requires AllParse(anchors)
    ensures forall u :: u in KeptLinks(anchors, pageHost).value <==> u in anchors && Keeps(pageHost, u)
  {
    if anchors != [] {
      assert AllParse(anchors[1..]) by {
        assert forall k :: 0 <= k < |anchors[1..]| ==> anchors[1..][k] == anchors[k + 1];
      }
      KeptLinksMembers(anchors[1..], pageHost);
      assert forall u :: u in anchors <==> u == anchors[0] || u in anchors[1..];
    }
  }

  /** First occurrences only, leaving out `seen`. */
  function Dedup(xs: seq<string>, seen: set<string>): (r: seq<string>)
    ensures NoDuplicates(r)
    ensures forall u :: u in r <==> u in xs && u !in seen
  {
    if xs == [] then []
    else if xs[0] in seen then Dedup(xs[1..], seen)
    else [xs[0]] + Dedup(xs[1..], seen + {xs[0]})
  }

  /** `_extract_links(soup, page_url)`: `list(set(links))`, here in first-occurrence order. */
  function ExtractLinks(anchors: seq<string>, pageHost: string): Result<seq<string>, ParseError>
  {
    match KeptLinks(anchors, pageHost)
    case Err(e) => Err(e)
    case Ok(links) => Ok(Dedup(links, {}))
  }

  /**
   * Extraction fails exactly when some anchor does not parse; otherwise it
   * yields each same-site anchor without a listed file extension, once.
   */
  lemma ExtractLinksFilters(anchors: seq<string>, pageHost: string)
    ensures ExtractLinks(anchors, pageHost).Ok? <==> AllParse(anchors)
    ensures ExtractLinks(anchors, pageHost).Ok? ==> NoDuplicates(ExtractLinks(anchors, pageHost).value)
    ensures ExtractLinks(anchors, pageHost).Ok? ==> forall u :: u in ExtractLinks(anchors, pageHost).value <==>
      u in anchors && Parse(u).Ok? && SameSite(Parse(u).value.netloc, pageHost)
      && !HasExtension(Lower(u), PageExtensions)
  {
    if AllParse(anchors) {
      KeptLinksMembers(anchors, pageHost);
    }
  }

  /** `links[:10]`. */
  function FirstLinks(links: seq<string>): (r: seq<string>)
    ensures |r| <= 10 && |r| <= |links| && r == links[..|r|]
  {
    if |links| <= 10 then links else links[..10]
  }

  // ------------------------------------------------------------ one URL

  /** The part of the crawler's state `_crawl_url` reads and writes. */
  datatype CrawlState = CrawlState(
    visited: set<string>,
    failed: set<string>,
    results: seq<CrawlResult>,
    lastRequestTime: map<string, real>,
    robotsCache: map<string, bool>,
    processedUrls: nat)

  /**
   * Failed URLs were visited first; every result is for a visited URL that
   * did not fail, no URL has two results, and the resource monitor counted
   * every result.
   */
  predicate Consistent(s: CrawlState)
  {
    s.failed <= s.visited
    && (forall i :: 0 <= i < |s.results| ==> s.results[i].url in s.visited && s.results[i].url !in s.failed)
    && (forall i, j :: 0 <= i < j < |s.results| ==> s.results[i].url != s.results[j].url)
    && s.processedUrls == |s.results|
  }

  /**
   * What the crawler calls but that is not part of this model's logic:
   * `hashlib.md5(text.encode()).hexdigest()` and the summarizer object's
   * `summarize_content` (the class binds it to `SummarizeContent`).
   */
  datatype Services = Services(md5: string -> string, summarize: string -> string)

  /** The result for a page that passed every guard. */
  function MakeResult(url: string, host: string, contentType: string, extracted: string, title: string,
                      links: seq<string>, crawlMethod: string, time: real, fx: Services): CrawlResult
  {
    CrawlResult(url, title, Take(extracted, 2000), fx.summarize(extracted), host, 200, contentType,
                |extracted|, crawlMethod, time, fx.md5(extracted), |Words(extracted)|, FirstLinks(links))
  }

  /**
   * The part of `_crawl_url` after the robots gate and the pacing sleep: the
   * GET at time `t` and the guards on its response. `s` already has the URL
   * marked visited.
   */
  function FetchStep(s: CrawlState, net: Network, url: string, p: UrlParts, t: real,
                     crawlMethod: string, fx: Services): (CrawlState, Option<CrawlResult>)
  {
    if url !in net.get || net.get[url].status != 200 then (s.(failed := s.failed + {url}), None)
    else PageStep(s, net.get[url], url, p, crawlMethod, t, fx)
  }

  /** The guards on a 200 response: an HTML page with enough extracted text. */
  function PageStep(s: CrawlState, resp: Response, url: string, p: UrlParts,
                    crawlMethod: string, t: real, fx: Services): (CrawlState, Option<CrawlResult>)
  {
    var contentType := Lower(resp.contentType);
    if !Contains(contentType, "text/html") || resp.extracted.None? || |Strip(resp.extracted.value)| < 100
    then (s, None)
    else ResultStep(s, resp, resp.extracted.value, contentType, url, p, crawlMethod, t, fx)
  }

  /** The links of an accepted page and the result built from it. */
  function ResultStep(s: CrawlState, resp: Response, extracted: string, contentType: string, url: string,
                      p: UrlParts, crawlMethod: string, t: real, fx: Services): (CrawlState, Option<CrawlResult>)
  {
    match ExtractLinks(resp.anchors, p.netloc)
    case Err(_) => (s.(failed := s.failed + {url}), None)
    case Ok(links) =>
      var title := if resp.title.Some? then Strip(resp.title.value) else p.path;
      var r := MakeResult(url, p.netloc, contentType, extracted, title, links, crawlMethod, t, fx);
      (s.(results := s.results + [r], processedUrls := s.processedUrls + 1), Some(r))
  }

  /**
   * The fetch touches only `failed`, `results` and the counter: it may fail
   * the URL, or append exactly one result for it and count it, never both.
   */
  lemma FetchStepEffect(s: CrawlState, net: Network, url: string, p: UrlParts, t: real, m: string, fx: Services)
    ensures FetchStep(s, net, url, p, t, m, fx).0.visited == s.visited
    ensures FetchStep(s, net, url, p, t, m, fx).0.robotsCache == s.robotsCache
    ensures FetchStep(s, net, url, p, t, m, fx).0.lastRequestTime == s.lastRequestTime
    ensures FetchStep(s, net, url, p, t, m, fx).0.failed <= s.failed + {url}
    ensures FetchStep(s, net, url, p, t, m, fx).1.None? ==>
      FetchStep(s, net, url, p, t, m, fx).0.results == s.results
      && FetchStep(s, net, url, p, t, m, fx).0.processedUrls == s.processedUrls
    ensures FetchStep(s, net, url, p, t, m, fx).1.Some? ==>
      FetchStep(s, net, url, p, t, m, fx).0.results == s.results + [FetchStep(s, net, url, p, t, m, fx).1.value]
      && FetchStep(s, net, url, p, t, m, fx).1.value.url == url
      && FetchStep(s, net, url, p, t, m, fx).0.processedUrls == s.processedUrls + 1
      && FetchStep(s, net, url, p, t, m, fx).0.failed == s.failed
  {
  }

  /**
   * `_crawl_url(url)` at time `now`: the new state and the result, if any.
   * A `urlparse` error while checking robots.txt escapes `_crawl_url` (the
   * batch's `gather` absorbs it), so the URL is only marked visited.
   */
  function CrawlStep(s: CrawlState, net: Network, url: string, now: real, delay: real,
                     crawlMethod: string, fx: Services): (CrawlState, Option<CrawlResult>)
  {
    if url in s.visited || url in s.failed then (s, None)
    else
      var s1 := s.(visited := s.visited + {url});
      match Parse(url)
      case Err(_) => (s1, None)
      case Ok(p) => GateStep(s1, net, url, p, now, delay, crawlMethod, fx)
  }

  /** The robots gate and the pacing sleep for the parsed URL, then the fetch. */
  function GateStep(s: CrawlState, net: Network, url: string, p: UrlParts, now: real, delay: real,
                    crawlMethod: string, fx: Services): (CrawlState, Option<CrawlResult>)
  {
    var cache := RobotsMemo(s.robotsCache, net, p.netloc);
    if !cache[p.netloc] then (s.(robotsCache := cache), None)
    else
      var t := RequestTime(s.lastRequestTime, p.netloc, now, delay);
      FetchStep(s.(robotsCache := cache, lastRequestTime := s.lastRequestTime[p.netloc := t]),
                net, url, p, t, crawlMethod, fx)
  }

  /** A URL already visited or failed is skipped and nothing changes. */
  lemma CrawlStepSkipsKnown(s: CrawlState, net: Network, url: string, now: real, delay: real, m: string, fx: Services)
    requires url in s.visited || url in s.failed
    ensures CrawlStep(s, net, url, now, delay, m, fx) == (s, None)
  {
  }

  /**
   * A new URL is marked visited before anything is fetched; it may fail,
   * but nothing else is marked, and at most one result, for that URL, is
   * appended.
   */
  lemma CrawlStepMarks(s: CrawlState, net: Network, url: string, now: real, delay: real, m: string, fx: Services)
    requires url !in s.visited && url !in s.failed
    ensures CrawlStep(s, net, url, now, delay, m, fx).0.visited == s.visited + {url}
    ensures CrawlStep(s, net, url, now, delay, m, fx).0.failed <= s.failed + {url}
    ensures CrawlStep(s, net, url, now, delay, m, fx).1.None? ==>
      CrawlStep(s, net, url, now, delay, m, fx).0.results == s.results
      && CrawlStep(s, net, url, now, delay, m, fx).0.processedUrls == s.processedUrls
    ensures CrawlStep(s, net, url, now, delay, m, fx).1.Some? ==>
      CrawlStep(s, net, url, now, delay, m, fx).0.results == s.results + [CrawlStep(s, net, url, now, delay, m, fx).1.value]
      && CrawlStep(s, net, url, now, delay, m, fx).1.value.url == url
      && CrawlStep(s, net, url, now, delay, m, fx).0.processedUrls == s.processedUrls + 1
      && CrawlStep(s, net, url, now, delay, m, fx).0.failed == s.failed
  {
    if Parse(url).Ok? {
      var p := Parse(url).value;
      var cache := RobotsMemo(s.robotsCache, net, p.netloc);
      if cache[p.netloc] {
        var t := RequestTime(s.lastRequestTime, p.netloc, now, delay);
        FetchStepEffect(s.(visited := s.visited + {url}, robotsCache := cache, lastRequestTime := s.lastRequestTime[p.netloc := t]),
                        net, url, p, t, m, fx);
      }
    }
  }

  /**
   * A result exists only for a 200 text/html page with at least 100
   * characters of extracted text; it keeps the first 2000 characters, at
   * most ten links, all of them anchors of the page, and counts the words of
   * the whole text.
   */
  lemma CrawlStepResult(s: CrawlState, net: Network, url: string, now: real, delay: real, m: string, fx: Services)
    requires CrawlStep(s, net, url, now, delay, m, fx).1.Some?
    ensures var r := CrawlStep(s, net, url, now, delay, m, fx).1.value;
      url !in s.visited && url !in s.failed && r.url == url
      && url in net.get && net.get[url].status == 200 && r.statusCode == 200
      && Contains(Lower(net.get[url].contentType), "text/html")
      && net.get[url].extracted.Some? && |Strip(net.get[url].extracted.value)| >= 100
      && r.content == Take(net.get[url].extracted.value, 2000)
      && r.contentLength == |net.get[url].extracted.value|
      && r.wordCount == |Words(net.get[url].extracted.value)|
      && |r.links| <= 10
      && r.crawlMethod == m
  {
  }

  /** The links of a fetched page's result are anchors of it that `_extract_links` keeps. */
  lemma FetchStepLinks(s: CrawlState, net: Network, url: string, p: UrlParts, t: real, m: string, fx: Services)
    requires FetchStep(s, net, url, p, t, m, fx).1.Some?
    ensures url in net.get
    ensures forall u :: u in FetchStep(s, net, url, p, t, m, fx).1.value.links ==>
      u in net.get[url].anchors && Keeps(p.netloc, u)
  {
    var resp := net.get[url];
    ExtractLinksFilters(resp.anchors, p.netloc);
    var links := ExtractLinks(resp.anchors, p.netloc).value;
    var r := FetchStep(s, net, url, p, t, m, fx).1.value;
    assert r.links == FirstLinks(links);
    forall u | u in r.links
      ensures u in resp.anchors && Keeps(p.netloc, u)
    {
      assert u in links;
    }
  }

  /**
   * The links of a result are anchors of the page it was made from, on the
   * same site as the URL and without a listed file extension.
   */
  lemma CrawlStepLinks(s: CrawlState, net: Network, url: string, now: real, delay: real, m: string, fx: Services)
    requires CrawlStep(s, net, url, now, delay, m, fx).1.Some?
    ensures url in net.get && Parse(url).Ok?
    ensures forall u :: u in CrawlStep(s, net, url, now, delay, m, fx).1.value.links ==>
      u in net.get[url].anchors && Keeps(Parse(url).value.netloc, u)
  {
    var p := Parse(url).value;
    var cache := RobotsMemo(s.robotsCache, net, p.netloc);
    var t := RequestTime(s.lastRequestTime, p.netloc, now, delay);
    FetchStepLinks(s.(visited := s.visited + {url}, robotsCache := cache, lastRequestTime := s.lastRequestTime[p.netloc := t]),
                   net, url, p, t, m, fx);
  }

  /** `_crawl_url` keeps the crawler's state consistent. */
  lemma CrawlStepConsistent(s: CrawlState, net: Network, url: string, now: real, delay: real, m: string, fx: Services)
    requires Consistent(s)
    ensures Consistent(CrawlStep(s, net, url, now, delay, m, fx).0)
  {
    if url !in s.visited && url !in s.failed {
      CrawlStepMarks(s, net, url, now, delay, m, fx);
      var step := CrawlStep(s, net, url, now, delay, m, fx);
      MarkedConsistent(s, url, step.0, step.1);
    }
  }

  /** A new URL marked visited, with at most its own result appended, keeps the state consistent. */
  lemma MarkedConsistent(s: CrawlState, url: string, s': CrawlState, r: Option<CrawlResult>)
    requires Consistent(s) && url !in s.visited && url !in s.failed
    requires s'.visited == s.visited + {url} && s'.failed <= s.failed + {url}
    requires r.None? ==> s'.results == s.results && s'.processedUrls == s.processedUrls
    requires r.Some? ==>
      s'.results == s.results + [r.value] && r.value.url == url
      && s'.processedUrls == s.processedUrls + 1 && s'.failed == s.failed
    ensures Consistent(s')
  {
    if r.Some? {
      forall i | 0 <= i < |s'.results|
        ensures s'.results[i].url in s'.visited && s'.results[i].url !in s'.failed
      {
        if i < |s.results| {
          assert s'.results[i] == s.results[i];
        }
      }
    }
  }

  /**
   * The robots memo stays faithful to the network; a host it closes gets
   * no request: nothing fails, no result, no pacing entry changes.
   */
  lemma CrawlStepRobots(s: CrawlState, net: Network, url: string, now: real, delay: real, m: string, fx: Services)
    requires RobotsSound(s.robotsCache, net)
    ensures RobotsSound(CrawlStep(s, net, url, now, delay, m, fx).0.robotsCache, net)
    ensures url !in s.visited && url !in s.failed && Parse(url).Ok? && !RobotsAllows(net, Parse(url).value.netloc) ==>
      CrawlStep(s, net, url, now, delay, m, fx) == (s.(visited := s.visited + {url},
        robotsCache := RobotsMemo(s.robotsCache, net, Parse(url).value.netloc)), None)
  {
    if url !in s.visited && url !in s.failed && Parse(url).Ok? {
      RobotsMemoSound(s.robotsCache, net, Parse(url).value.netloc);
    }
  }

  /**
   * Pacing: the only timestamp that changes is the URL host's, and the new
   * request is at least `delay` after the previous one to that host.
   */
  lemma CrawlStepPacing(s: CrawlState, net: Network, url: string, now: real, delay: real, m: string, fx: Services)
    ensures var t := CrawlStep(s, net, url, now, delay, m, fx).0.lastRequestTime;
      t.Keys >= s.lastRequestTime.Keys
      && forall h :: h in t && (h !in s.lastRequestTime || t[h] != s.lastRequestTime[h]) ==>
        Parse(url).Ok? && h == Parse(url).value.netloc && t[h] >= now
        && (h in s.lastRequestTime ==> t[h] >= s.lastRequestTime[h] + delay)
  {
    if url !in s.visited && url !in s.failed && Parse(url).Ok? {
      GateStepPacing(s.(visited := s.visited + {url}), net, url, Parse(url).value, now, delay, m, fx);
    }
  }

  /** The pacing of one gated request: only the URL's own host gets a new, later time. */
  lemma GateStepPacing(s: CrawlState, net: Network, url: string, p: UrlParts, now: real, delay: real, m: string, fx: Services)
    ensures var t := GateStep(s, net, url, p, now, delay, m, fx).0.lastRequestTime;
      t.Keys >= s.lastRequestTime.Keys
      && forall h :: h in t && (h !in s.lastRequestTime || t[h] != s.lastRequestTime[h]) ==>
        h == p.netloc && t[h] >= now
        && (h in s.lastRequestTime ==> t[h] >= s.lastRequestTime[h] + delay)
  {
  }

  // ------------------------------------------------------------ the queue

  /** `_add_discovered_urls(urls)`: unseen URLs are appended while the queue holds fewer than 1000. */
  function Enqueue(queue: seq<string>, urls: seq<string>, visited: set<string>, failed: set<string>): seq<string>
    decreases |urls|
  {
    if urls == [] then queue
    else
      var q := if urls[0] !in visited && urls[0] !in failed && |queue| < 1000 then queue + [urls[0]] else queue;
      Enqueue(q, urls[1..], visited, failed)
  }

  /**
   * The queue only grows at its end, never past 1000 by this route, and only
   * with unseen URLs from `urls`; when it ends below 1000 every unseen URL of
   * `urls` is in it.
   */
  lemma {:induction false} EnqueueFacts(queue: seq<string>, urls: seq<string>, visited: set<string>, failed: set<string>)
    ensures |queue| <= |Enqueue(queue, urls, visited, failed)| <= Max(|queue|, 1000)
    ensures Enqueue(queue, urls, visited, failed)[..|queue|] == queue
    ensures forall i :: |queue| <= i < |Enqueue(queue, urls, visited, failed)| ==>
      Enqueue(queue, urls, visited, failed)[i] in urls
      && Enqueue(queue, urls, visited, failed)[i] !in visited
      && Enqueue(queue, urls, visited, failed)[i] !in failed
    ensures |Enqueue(queue, urls, visited, failed)| < 1000 ==>
      forall u :: u in urls && u !in visited && u !in failed ==> u in Enqueue(queue, urls, visited, failed)
    decreases |urls|
  {
    if urls != [] {
      var q := if urls[0] !in visited && urls[0] !in failed && |queue| < 1000 then queue + [urls[0]] else queue;
      EnqueueFacts(q, urls[1..], visited, failed);
      var r := Enqueue(q, urls[1..], visited, failed);
      assert r == Enqueue(queue, urls, visited, failed);
      assert r[..|queue|] == r[..|q|][..|queue|];
      forall i | |queue| <= i < |r|
        ensures r[i] in urls && r[i] !in visited && r[i] !in failed
      {
        if i < |q| {
          assert r[i] == r[..|q|][i] == q[i] == urls[0];
        } else {
          assert r[i] in urls[1..];
        }
      }
      if |r| < 1000 {
        forall u | u in urls && u !in visited && u !in failed
          ensures u in r
        {
          if u == urls[0] {
            assert r[..|q|][|queue|] == u;
          } else {
            assert u in urls[1..];
          }
        }
      }
    }
  }

  /** Every link is an element of the queue before or of one of the links. */
  function LinksOf(found: seq<CrawlResult>): set<string>
  {
    set i, u | 0 <= i < |found| && u in found[i].links :: u
  }

  /** The manual-mode feedback: the links of each result of a batch, in order. */
  function FeedQueue(queue: seq<string>, found: seq<CrawlResult>, visited: set<string>, failed: set<string>): seq<string>
    decreases |found|
  {
    if found == [] then queue
    else
      var q := if found[0].links != [] then Enqueue(queue, found[0].links, visited, failed) else queue;
      FeedQueue(q, found[1..], visited, failed)
  }

  /** The feedback keeps the queue, adds only links of the batch's results, and respects the cap. */
  lemma {:induction false} FeedQueueFacts(queue: seq<string>, found: seq<CrawlResult>, visited: set<string>, failed: set<string>)
    ensures |queue| <= |FeedQueue(queue, found, visited, failed)| <= Max(|queue|, 1000)
    ensures FeedQueue(queue, found, visited, failed)[..|queue|] == queue
    ensures Elems(FeedQueue(queue, found, visited, failed)) <= Elems(queue) + LinksOf(found)
    decreases |found|
  {
    if found != [] {
      var q := if found[0].links != [] then Enqueue(queue, found[0].links, visited, failed) else queue;
      EnqueueFacts(queue, found[0].links, visited, failed);
      FeedQueueFacts(q, found[1..], visited, failed);
      var r := FeedQueue(q, found[1..], visited, failed);
      assert r[..|queue|] == r[..|q|][..|queue|];
      assert LinksOf(found[1..]) <= LinksOf(found) by {
        forall u | u in LinksOf(found[1..])
          ensures u in LinksOf(found)
        {
          var i :| 0 <= i < |found[1..]| && u in found[1..][i].links;
          assert found[i + 1] == found[1..][i];
        }
      }
      forall u | u in Elems(q)
        ensures u in Elems(queue) + LinksOf(found)
      {
        var k :| 0 <= k < |q| && q[k] == u;
        if k >= |queue| {
          assert u in found[0].links;
        } else {
          assert q[..|queue|][k] == u;
        }
      }
    }
  }

  /** Python's `xs[:n]` on a list of `len` elements, for any integer `n`. */
  function SliceLen(n: int, len: nat): (r: nat)
    ensures r <= len
    ensures n >= 0 ==> r == if n < len then n else len
    ensures n < 0 ==> r == if len + n < 0 then 0 else len + n
  {
    if n >= 0 then (if n < len then n else len)
    else if len + n < 0 then 0 else len + n
  }

  // ------------------------------------------------------------ subdomains

  /** The names `_discover_subdomains` tries, in order. */
  const CommonSubdomains: seq<string> :=
    ["www", "blog", "shop", "store", "api", "app", "support", "help", "docs", "forum",
     "community", "news", "mail", "static", "assets", "cdn", "media", "images"]

  /** The domain with every "www." removed when it starts with one. */
  function BaseDomain(domain: string): string
  {
    if StartsWith(domain, "www.") then ReplaceAll(domain, "www.", "") else domain
  }

  function SubdomainUrl(name: string, base: string): string
  {
    "https://" + name + "." + base
  }

  /**
   * The probe loop of `_discover_subdomains`: the found set and the count
   * after trying `names`; a name is found when its URL is not the base URL
   * and answers HEAD with 200 (a failed request is skipped).
   */
  function Probe(net: Network, names: seq<string>, base: string, baseUrl: string, maxSubdomains: int,
                 found: set<string>, count: nat): (set<string>, nat)
    decreases |names|
  {
    if names == [] || count >= maxSubdomains then (found, count)
    else
      var u := SubdomainUrl(names[0], base);
      if u != baseUrl && u in net.head && net.head[u] == 200
      then Probe(net, names[1..], base, baseUrl, maxSubdomains, found + {u}, count + 1)
      else Probe(net, names[1..], base, baseUrl, maxSubdomains, found, count)
  }

  predicate Answers(net: Network, u: string, baseUrl: string)
  {
    u != baseUrl && u in net.head && net.head[u] == 200
  }

  /**
   * The count never passes `max_subdomains` (unless it already had), the set
   * grows by at most the count's growth, with answering subdomain URLs
   * only; and below the cap every answering name was found.
   */
  lemma {:induction false} ProbeFacts(net: Network, names: seq<string>, base: string, baseUrl: string, maxSubdomains: int,
                                      found: set<string>, count: nat)
    ensures count <= Probe(net, names, base, baseUrl, maxSubdomains, found, count).1 <= Max(count, maxSubdomains)
    ensures found <= Probe(net, names, base, baseUrl, maxSubdomains, found, count).0
    ensures |Probe(net, names, base, baseUrl, maxSubdomains, found, count).0|
      <= |found| + Probe(net, names, base, baseUrl, maxSubdomains, found, count).1 - count
    ensures forall u :: u in Probe(net, names, base, baseUrl, maxSubdomains, found, count).0 && u !in found ==>
      Answers(net, u, baseUrl) && exists k :: 0 <= k < |names| && u == SubdomainUrl(names[k], base)
    ensures Probe(net, names, base, baseUrl, maxSubdomains, found, count).1 < maxSubdomains ==>
      forall k :: 0 <= k < |names| && Answers(net, SubdomainUrl(names[k], base), baseUrl) ==>
        SubdomainUrl(names[k], base) in Probe(net, names, base, baseUrl, maxSubdomains, found, count).0
    decreases |names|
  {
    if names != [] && count < maxSubdomains {
      var u := SubdomainUrl(names[0], base);
      var f := if Answers(net, u, baseUrl) then found + {u} else found;
      var c := if Answers(net, u, baseUrl) then count + 1 else count;
      ProbeFacts(net, names[1..], base, baseUrl, maxSubdomains, f, c);
      var r := Probe(net, names[1..], base, baseUrl, maxSubdomains, f, c);
      assert r == Probe(net, names, base, baseUrl, maxSubdomains, found, count);
      forall v | v in r.0 && v !in found
        ensures Answers(net, v, baseUrl) && exists k :: 0 <= k < |names| && v == SubdomainUrl(names[k], base)
      {
        if v in f {
          assert v == SubdomainUrl(names[0], base);
        } else {
          var k :| 0 <= k < |names[1..]| && v == SubdomainUrl(names[1..][k], base);
          assert v == SubdomainUrl(names[k + 1], base);
        }
      }
      if r.1 < maxSubdomains {
        forall k | 0 <= k < |names| && Answers(net, SubdomainUrl(names[k], base), baseUrl)
          ensures SubdomainUrl(names[k], base) in r.0
        {
          if k > 0 {
            assert names[k] == names[1..][k - 1];
          }
        }
      }
    }
  }

  // ------------------------------------------------------------ one batch

  /** The result of one URL as the batch collects it: `gather` keeps only `CrawlResult`s. */
  function Found(r: Option<CrawlResult>): (rs: seq<CrawlResult>)
    ensures r.None? ==> rs == []
    ensures r.Some? ==> rs == [r.value]
  {
    if r.Some? then [r.value] else []
  }

  /**
   * One URL crawled from a state at the given clock tick: the new state and
   * the page's result, if any.
   */
  type Step = (CrawlState, string, nat) -> (CrawlState, Option<CrawlResult>)

  /** `_crawl_url` with the network, the clock, the delay, the crawl method and the services fixed. */
  function Stepper(net: Network, clock: nat -> real, delay: real, m: string, fx: Services): Step
  {
    (st: CrawlState, u: string, t: nat) => CrawlStep(st, net, u, clock(t), delay, m, fx)
  }

  /**
   * The first `k` URLs of a batch, crawled one after another, the j-th at
   * clock tick `tick + j`: the state after them and their results in batch order.
   */
  function CrawlRun(s: CrawlState, batch: seq<string>, k: nat, tick: nat, step: Step)
    : (CrawlState, seq<CrawlResult>)
    requires k <= |batch|
    decreases k
  {
    if k == 0 then (s, [])
    else
      var prev := CrawlRun(s, batch, k - 1, tick, step);
      var next := step(prev.0, batch[k - 1], tick + (k - 1));
      (next.0, prev.1 + Found(next.1))
  }

  /** One more URL of the batch. */
  lemma CrawlRunNext(s: CrawlState, batch: seq<string>, k: nat, tick: nat, step: Step)
    requires k < |batch|
    ensures CrawlRun(s, batch, k + 1, tick, step) ==
      (step(CrawlRun(s, batch, k, tick, step).0, batch[k], tick + k).0,
       CrawlRun(s, batch, k, tick, step).1 + Found(step(CrawlRun(s, batch, k, tick, step).0, batch[k], tick + k).1))
  {
  }

  /** A run of `i` URLs followed by one more step is the run of `i + 1` URLs. */
  lemma CrawlRunGrows(s0: CrawlState, batch: seq<string>, i: nat, tick: nat, step: Step, before: CrawlState,
                      found: seq<CrawlResult>, after: CrawlState, r: Option<CrawlResult>)
    requires i < |batch|
    requires (before, found) == CrawlRun(s0, batch, i, tick, step)
    requires (after, r) == step(before, batch[i], tick + i)
    ensures (after, found + Found(r)) == CrawlRun(s0, batch, i + 1, tick, step)
  {
    CrawlRunNext(s0, batch, i, tick, step);
  }

  /** Every anchor of every page the network serves. */
  function AllAnchors(net: Network): set<string>
  {
    set k, u | k in net.get && u in net.get[k].anchors :: u
  }

  /**
   * One URL of a batch: it ends up visited, and its result, if any, is
   * appended to the results.
   */
  lemma CrawlStepRecords(s: CrawlState, net: Network, url: string, now: real, delay: real, m: string, fx: Services)
    requires s.failed <= s.visited
    ensures CrawlStep(s, net, url, now, delay, m, fx).0.visited == s.visited + {url}
    ensures CrawlStep(s, net, url, now, delay, m, fx).0.failed <= CrawlStep(s, net, url, now, delay, m, fx).0.visited
    ensures CrawlStep(s, net, url, now, delay, m, fx).0.results == s.results + Found(CrawlStep(s, net, url, now, delay, m, fx).1)
  {
    if url in s.visited {
      CrawlStepSkipsKnown(s, net, url, now, delay, m, fx);
    } else {
      CrawlStepMarks(s, net, url, now, delay, m, fx);
    }
  }

  /** Every step marks its URL visited, keeps failures among the visited and appends its result. */
  ghost predicate Records(step: Step)
  {
    forall st: CrawlState, u: string, t: nat :: st.failed <= st.visited ==>
      step(st, u, t).0.visited == st.visited + {u}
      && step(st, u, t).0.failed <= step(st, u, t).0.visited
      && step(st, u, t).0.results == st.results + Found(step(st, u, t).1)
  }

  /** Every step keeps the state consistent and the robots memo faithful. */
  ghost predicate Sound(step: Step, net: Network)
  {
    forall st: CrawlState, u: string, t: nat :: Consistent(st) && RobotsSound(st.robotsCache, net) ==>
      Consistent(step(st, u, t).0) && RobotsSound(step(st, u, t).0.robotsCache, net)
  }

  /** Every step's links are anchors the network serves. */
  ghost predicate Linked(step: Step, net: Network)
  {
    forall st: CrawlState, u: string, t: nat :: LinksOf(Found(step(st, u, t).1)) <= AllAnchors(net)
  }

  /** A step on a URL already visited changes nothing and yields nothing. */
  ghost predicate SkipsKnown(step: Step)
  {
    forall st: CrawlState, u: string, t: nat :: u in st.visited ==> step(st, u, t) == (st, None)
  }

  lemma StepperRecords(net: Network, clock: nat -> real, delay: real, m: string, fx: Services)
    ensures Records(Stepper(net, clock, delay, m, fx))
  {
    forall st: CrawlState, u: string, t: nat | st.failed <= st.visited
      ensures Stepper(net, clock, delay, m, fx)(st, u, t) == CrawlStep(st, net, u, clock(t), delay, m, fx)
      ensures CrawlStep(st, net, u, clock(t), delay, m, fx).0.visited == st.visited + {u}
      ensures CrawlStep(st, net, u, clock(t), delay, m, fx).0.failed <= CrawlStep(st, net, u, clock(t), delay, m, fx).0.visited
      ensures CrawlStep(st, net, u, clock(t), delay, m, fx).0.results == st.results + Found(CrawlStep(st, net, u, clock(t), delay, m, fx).1)
    {
      CrawlStepRecords(st, net, u, clock(t), delay, m, fx);
    }
  }

  lemma StepperSound(net: Network, clock: nat -> real, delay: real, m: string, fx: Services)
    ensures Sound(Stepper(net, clock, delay, m, fx), net)
  {
    forall st: CrawlState, u: string, t: nat | Consistent(st) && RobotsSound(st.robotsCache, net)
      ensures Stepper(net, clock, delay, m, fx)(st, u, t) == CrawlStep(st, net, u, clock(t), delay, m, fx)
      ensures Consistent(CrawlStep(st, net, u, clock(t), delay, m, fx).0)
      ensures RobotsSound(CrawlStep(st, net, u, clock(t), delay, m, fx).0.robotsCache, net)
    {
      CrawlStepConsistent(st, net, u, clock(t), delay, m, fx);
      CrawlStepRobots(st, net, u, clock(t), delay, m, fx);
    }
  }

  lemma StepperSkipsKnown(net: Network, clock: nat -> real, delay: real, m: string, fx: Services)
    ensures SkipsKnown(Stepper(net, clock, delay, m, fx))
  {
    forall st: CrawlState, u: string, t: nat | u in st.visited
      ensures Stepper(net, clock, delay, m, fx)(st, u, t) == CrawlStep(st, net, u, clock(t), delay, m, fx)
      ensures CrawlStep(st, net, u, clock(t), delay, m, fx) == (st, None)
    {
      CrawlStepSkipsKnown(st, net, u, clock(t), delay, m, fx);
    }
  }

  /** A batch keeps the state consistent and the robots memo faithful. */
  lemma {:induction false} CrawlRunSound(s: CrawlState, net: Network, batch: seq<string>, k: nat, tick: nat,
                                         step: Step)
    requires k <= |batch|
    requires Sound(step, net)
    requires Consistent(s) && RobotsSound(s.robotsCache, net)
    ensures Consistent(CrawlRun(s, batch, k, tick, step).0)
    ensures RobotsSound(CrawlRun(s, batch, k, tick, step).0.robotsCache, net)
    decreases k
  {
    if k > 0 {
      CrawlRunSound(s, net, batch, k - 1, tick, step);
      CrawlRunNext(s, batch, k - 1, tick, step);
      var prev := CrawlRun(s, batch, k - 1, tick, step).0;
      var next := step(prev, batch[k - 1], tick + (k - 1));
      assert Consistent(next.0) && RobotsSound(next.0.robotsCache, net);
    }
  }

  /** A batch marks exactly its URLs visited, and whatever fails was visited. */
  lemma {:induction false} CrawlRunVisits(s: CrawlState, batch: seq<string>, k: nat, tick: nat,
                                          step: Step)
    requires k <= |batch|
    requires Records(step)
    requires s.failed <= s.visited
    ensures CrawlRun(s, batch, k, tick, step).0.visited == s.visited + Elems(batch[..k])
    ensures CrawlRun(s, batch, k, tick, step).0.failed <= CrawlRun(s, batch, k, tick, step).0.visited
    decreases k
  {
    if k > 0 {
      CrawlRunVisits(s, batch, k - 1, tick, step);
      CrawlRunNext(s, batch, k - 1, tick, step);
      assert batch[..k] == batch[..k - 1] + [batch[k - 1]];
      assert Elems(batch[..k]) == Elems(batch[..k - 1]) + {batch[k - 1]};
    }
  }

  /** A batch appends to the results exactly what it returns, at most one record per URL. */
  lemma {:induction false} CrawlRunResults(s: CrawlState, batch: seq<string>, k: nat, tick: nat,
                                           step: Step)
    requires k <= |batch|
    requires Records(step)
    requires s.failed <= s.visited
    ensures CrawlRun(s, batch, k, tick, step).0.results == s.results + CrawlRun(s, batch, k, tick, step).1
    ensures |CrawlRun(s, batch, k, tick, step).1| <= k
    decreases k
  {
    if k > 0 {
      CrawlRunResults(s, batch, k - 1, tick, step);
      CrawlRunVisits(s, batch, k - 1, tick, step);
      CrawlRunNext(s, batch, k - 1, tick, step);
      var prev := CrawlRun(s, batch, k - 1, tick, step);
      var next := step(prev.0, batch[k - 1], tick + (k - 1));
      assert s.results + (prev.1 + Found(next.1)) == (s.results + prev.1) + Found(next.1);
    }
  }

  lemma LinksOfAppend(a: seq<CrawlResult>, b: seq<CrawlResult>)
    ensures LinksOf(a + b) == LinksOf(a) + LinksOf(b)
  {
    forall u | u in LinksOf(a + b)
      ensures u in LinksOf(a) + LinksOf(b)
    {
      var i :| 0 <= i < |a + b| && u in (a + b)[i].links;
      if i >= |a| {
        assert (a + b)[i] == b[i - |a|];
      }
    }
    forall u | u in LinksOf(a)
      ensures u in LinksOf(a + b)
    {
      var i :| 0 <= i < |a| && u in a[i].links;
      assert (a + b)[i] == a[i];
    }
    forall u | u in LinksOf(b)
      ensures u in LinksOf(a + b)
    {
      var i :| 0 <= i < |b| && u in b[i].links;
      assert (a + b)[i + |a|] == b[i];
    }
  }

  /** The links of the result of one URL, if any, are anchors the network serves. */
  lemma CrawlStepAnchors(s: CrawlState, net: Network, url: string, now: real, delay: real, m: string, fx: Services)
    ensures LinksOf(Found(CrawlStep(s, net, url, now, delay, m, fx).1)) <= AllAnchors(net)
  {
    var r := CrawlStep(s, net, url, now, delay, m, fx).1;
    if r.Some? {
      CrawlStepLinks(s, net, url, now, delay, m, fx);
      assert forall v :: v in LinksOf([r.value]) ==> v in r.value.links;
    }
  }

  lemma StepperLinked(net: Network, clock: nat -> real, delay: real, m: string, fx: Services)
    ensures Linked(Stepper(net, clock, delay, m, fx), net)
  {
    forall st: CrawlState, u: string, t: nat
      ensures Stepper(net, clock, delay, m, fx)(st, u, t) == CrawlStep(st, net, u, clock(t), delay, m, fx)
      ensures LinksOf(Found(CrawlStep(st, net, u, clock(t), delay, m, fx).1)) <= AllAnchors(net)
    {
      CrawlStepAnchors(st, net, u, clock(t), delay, m, fx);
    }
  }

  /** The links of a batch's results are anchors the network serves. */
  lemma {:induction false} CrawlRunLinks(s: CrawlState, net: Network, batch: seq<string>, k: nat, tick: nat,
                                         step: Step)
    requires k <= |batch|
    requires Linked(step, net)
    ensures LinksOf(CrawlRun(s, batch, k, tick, step).1) <= AllAnchors(net)
    decreases k
  {
    if k > 0 {
      CrawlRunLinks(s, net, batch, k - 1, tick, step);
      CrawlRunNext(s, batch, k - 1, tick, step);
      var prev := CrawlRun(s, batch, k - 1, tick, step);
      var next := step(prev.0, batch[k - 1], tick + (k - 1));
      LinksOfAppend(prev.1, Found(next.1));
    }
  }

  /** A batch of URLs already visited changes nothing and yields nothing. */
  lemma {:induction false} CrawlRunKnown(s: CrawlState, batch: seq<string>, k: nat, tick: nat,
                                         step: Step)
    requires k <= |batch|
    requires SkipsKnown(step)
    requires Elems(batch[..k]) <= s.visited
    ensures CrawlRun(s, batch, k, tick, step) == (s, [])
    decreases k
  {
    if k > 0 {
      assert batch[..k] == batch[..k - 1] + [batch[k - 1]];
      assert Elems(batch[..k - 1]) <= s.visited && batch[k - 1] in s.visited;
      CrawlRunKnown(s, batch, k - 1, tick, step);
      CrawlRunNext(s, batch, k - 1, tick, step);
      assert step(s, batch[k - 1], tick + (k - 1)) == (s, None);
      assert CrawlRun(s, batch, k, tick, step) == (s, [] + Found(None));
    }
  }

  /**
   * What one batch of `crawl()` does to the crawler's state, gathered for the
   * batch loop: consistency and the robots memo are kept, exactly the batch
   * is marked visited, at most one result per URL is appended and their links
   * are anchors the network serves.
   */
  lemma BatchFacts(s: CrawlState, net: Network, batch: seq<string>, tick: nat, clock: nat -> real, delay: real,
                   m: string, fx: Services)
    requires Consistent(s) && RobotsSound(s.robotsCache, net)
    ensures Consistent(CrawlRun(s, batch, |batch|, tick, Stepper(net, clock, delay, m, fx)).0)
    ensures RobotsSound(CrawlRun(s, batch, |batch|, tick, Stepper(net, clock, delay, m, fx)).0.robotsCache, net)
    ensures CrawlRun(s, batch, |batch|, tick, Stepper(net, clock, delay, m, fx)).0.visited == s.visited + Elems(batch)
    ensures CrawlRun(s, batch, |batch|, tick, Stepper(net, clock, delay, m, fx)).0.results
      == s.results + CrawlRun(s, batch, |batch|, tick, Stepper(net, clock, delay, m, fx)).1
    ensures |CrawlRun(s, batch, |batch|, tick, Stepper(net, clock, delay, m, fx)).1| <= |batch|
    ensures LinksOf(CrawlRun(s, batch, |batch|, tick, Stepper(net, clock, delay, m, fx)).1) <= AllAnchors(net)
    ensures Elems(batch) <= s.visited ==> CrawlRun(s, batch, |batch|, tick, Stepper(net, clock, delay, m, fx)) == (s, [])
  {
    var step := Stepper(net, clock, delay, m, fx);
    StepperSound(net, clock, delay, m, fx);
    StepperRecords(net, clock, delay, m, fx);
    StepperLinked(net, clock, delay, m, fx);
    StepperSkipsKnown(net, clock, delay, m, fx);
    CrawlRunSound(s, net, batch, |batch|, tick, step);
    CrawlRunVisits(s, batch, |batch|, tick, step);
    CrawlRunResults(s, batch, |batch|, tick, step);
    CrawlRunLinks(s, net, batch, |batch|, tick, step);
    assert batch[..|batch|] == batch;
    if Elems(batch) <= s.visited {
      CrawlRunKnown(s, batch, |batch|, tick, step);
    }
  }

  /** Splitting a queue splits its members. */
  lemma SplitElems(q: seq<string>, n: nat)
    requires n <= |q|
    ensures Elems(q) == Elems(q[..n]) + Elems(q[n..])
  {
    assert q == q[..n] + q[n..];
  }

  /** Visiting one more URL of a finite universe shrinks what is left to visit. */
  lemma GapShrinks(universe: set<string>, visited: set<string>, visited': set<string>, u: string)
    requires visited <= visited' && u in universe && u !in visited && u in visited'
    ensures |universe - visited'| < |universe - visited|
  {
    var gap, gap' := universe - visited, universe - visited';
    assert gap == gap' + (gap - gap') && gap' * (gap - gap') == {};
    assert u in gap - gap';
  }

  /**
   * What the batch loop of `crawl()` keeps, from the state it started in
   * (results `r0`, visited `v0`, queue `q0`): the results only grow, by
   * `added`, whose links are anchors; exactly the URLs `popped` so far are
   * newly visited; everything queued or popped is a URL of `universe`; the
   * starting queue is consumed from the front, in order, with whatever was
   * queued since behind it; the queue stays within the 1000 cap (or its
   * starting length); and outside manual mode the queue is only consumed.
   */
  ghost predicate LoopInv(r0: seq<CrawlResult>, v0: set<string>, q0: seq<string>, universe: set<string>,
                          anchors: set<string>, manual: bool, results: seq<CrawlResult>, visited: set<string>,
                          queue: seq<string>, popped: seq<string>, added: seq<CrawlResult>)
  {
    results == r0 + added && LinksOf(added) <= anchors
    && visited == v0 + Elems(popped)
    && Elems(queue) <= universe && Elems(popped) <= universe
    && q0 <= popped + queue
    && |queue| <= Max(|q0|, 1000)
    && (!manual ==> q0 == popped + queue)
  }

  /** A round that pops `size` URLs and keeps the rest in front keeps `q0` at the front of the popped-then-queued URLs. */
  lemma QueueFrontStep(q0: seq<string>, popped: seq<string>, queue: seq<string>, size: nat, queue': seq<string>)
    requires 0 < size <= |queue|
    requires q0 <= popped + queue
    requires queue[size..] <= queue'
    ensures q0 <= (popped + queue[..size]) + queue'
  {
    var s := (popped + queue[..size]) + queue';
    assert s[..|popped + queue|] == popped + queue by {
      assert queue == queue[..size] + queue[size..];
      assert queue' == queue[size..] + queue'[|queue| - size..];
    }
  }

  /**
   * One round of the batch loop keeps `LoopInv`, and either visits a new URL
   * of the finite universe or leaves the visited set alone and shortens the
   * queue: the loop terminates.
   */
  lemma RoundKeepsLoopInv(r0: seq<CrawlResult>, v0: set<string>, q0: seq<string>, universe: set<string>,
                          anchors: set<string>, manual: bool, results: seq<CrawlResult>, visited: set<string>,
                          queue: seq<string>, popped: seq<string>, added: seq<CrawlResult>,
                          size: nat, found: seq<CrawlResult>, results': seq<CrawlResult>, visited': set<string>,
                          queue': seq<string>)
    requires LoopInv(r0, v0, q0, universe, anchors, manual, results, visited, queue, popped, added)
    requires 0 < size <= |queue|
    requires anchors <= universe
    requires visited' == visited + Elems(queue[..size])
    requires results' == results + found && LinksOf(found) <= anchors
    requires manual ==> Elems(queue') <= Elems(queue[size..]) + LinksOf(found)
    requires manual ==> queue[size..] <= queue' && |queue'| <= Max(|queue| - size, 1000)
    requires !manual ==> queue' == queue[size..]
    requires Elems(queue[..size]) <= visited ==> queue' == queue[size..]
    ensures LoopInv(r0, v0, q0, universe, anchors, manual, results', visited', queue', popped + queue[..size], added + found)
    ensures |universe - visited'| < |universe - visited| || (visited' == visited && |queue'| < |queue|)
  {
    var batch := queue[..size];
    SplitElems(queue, size);
    LinksOfAppend(added, found);
    assert results' == r0 + (added + found);
    assert Elems(popped + batch) == Elems(popped) + Elems(batch);
    assert queue == batch + queue[size..];
    assert !manual ==> q0 == (popped + batch) + queue[size..];
    assert queue[size..] <= queue';
    QueueFrontStep(q0, popped, queue, size, queue');
    if Elems(batch) <= visited {
      assert visited' == visited;
    } else {
      var u :| u in Elems(batch) && u !in visited;
      GapShrinks(universe, visited, visited', u);
    }
  }

  // ------------------------------------------------------------ the crawler

  /** `EnhancedWebCrawler`: its settings and the state a crawl updates. */
  class EnhancedWebCrawler {
    const baseUrl: string
    const domain: string
    const maxSubdomains: int
    const maxPages: int
    const maxConcurrent: int
    const delay: real
    const maxMemoryMb: int
    const preferSitemap: bool
    const services: Services
    const sitemapDiscovery: SitemapDiscovery

    var visited: set<string>
    var failed: set<string>
    var queue: seq<string>
    var discoveredSubdomains: set<string>
    var results: seq<CrawlResult>
    var sitemapUrls: set<string>
    var crawlMethod: string
    var lastRequestTime: map<string, real>
    var robotsCache: map<string, bool>
    /** The resource monitor's `processed_urls`. */
    var processedUrls: nat

    function State(): CrawlState
      reads this
    {
      CrawlState(visited, failed, results, lastRequestTime, robotsCache, processedUrls)
    }

    /** `EnhancedWebCrawler(base_url, ...)`; `urlparse` must accept the base URL. */
    constructor (base: string, subdomains: int, pages: int, concurrent: int, delaySeconds: real,
                 memoryMb: int, prefer: bool, md5: string -> string)
      requires Parse(base).Ok?
      ensures baseUrl == RStripSlash(base) && domain == Parse(base).value.netloc
      ensures maxSubdomains == subdomains && maxPages == pages && maxConcurrent == concurrent
      ensures delay == delaySeconds && maxMemoryMb == memoryMb && preferSitemap == prefer
      ensures services.md5 == md5 && forall text :: services.summarize(text) == SummarizeContent(text)
      ensures fresh(sitemapDiscovery)
      ensures sitemapDiscovery.domain == domain && sitemapDiscovery.maxPages == pages
      ensures sitemapDiscovery.discoveredUrls == {}
      ensures State() == CrawlState({}, {}, [], map[], map[], 0)
      ensures queue == [] && discoveredSubdomains == {} && sitemapUrls == {} && crawlMethod == "unknown"
    {
      baseUrl := RStripSlash(base);
      domain := Parse(base).value.netloc;
      maxSubdomains := subdomains;
      maxPages := pages;
      maxConcurrent := concurrent;
      delay := delaySeconds;
      maxMemoryMb := memoryMb;
      preferSitemap := prefer;
      services := Services(md5, SummarizeContent);
      sitemapDiscovery := new SitemapDiscovery(base, pages);
      visited := {};
      failed := {};
      queue := [];
      discoveredSubdomains := {};
      results := [];
      sitemapUrls := {};
      crawlMethod := "unknown";
      lastRequestTime := map[];
      robotsCache := map[];
      processedUrls := 0;
    }

    /**
     * `EnhancedWebCrawler(base_url, ...)` seen from its caller: a base URL
     * `urlparse` rejects raises its `ValueError` instead of building a crawler.
     */
    static method Create(base: string, subdomains: int, pages: int, concurrent: int, delaySeconds: real,
                         memoryMb: int, prefer: bool, md5: string -> string)
      returns (r: Result<EnhancedWebCrawler, ParseError>)
      ensures r.Err? <==> Parse(base).Err?
      ensures r.Err? ==> r.error == Parse(base).error
      ensures r.Ok? ==> fresh(r.value) && fresh(r.value.sitemapDiscovery)
      ensures r.Ok? ==> r.value.baseUrl == RStripSlash(base) && r.value.domain == Parse(base).value.netloc
      ensures r.Ok? ==> r.value.maxPages == pages && r.value.sitemapDiscovery.maxPages == pages
      ensures r.Ok? ==> r.value.State() == CrawlState({}, {}, [], map[], map[], 0) && r.value.queue == []
    {
      match Parse(base)
      case Err(e) => r := Err(e);
      case Ok(_) =>
        var c := new EnhancedWebCrawler(base, subdomains, pages, concurrent, delaySeconds, memoryMb, prefer, md5);
        r := Ok(c);
    }

    /** `_check_robots_txt` for the host of the URL being crawled. */
    method CheckRobotsTxt(net: Network, host: string) returns (allowed: bool)
      modifies this`robotsCache
      ensures robotsCache == RobotsMemo(old(robotsCache), net, host)
      ensures allowed == robotsCache[host]
    {
      if host !in robotsCache {
        var robots := "https://" + host + "/robots.txt";
        if robots in net.get && net.get[robots].status == 200 {
          var content := net.get[robots].body;
          robotsCache := robotsCache[host := !(Contains(content, "User-agent: *") && Contains(content, "Disallow: /"))];
        } else {
          robotsCache := robotsCache[host := true];
        }
      }
      allowed := robotsCache[host];
    }

    /** `_crawl_url(url)` with the clock reading `now`. */
    method CrawlUrl(net: Network, url: string, now: real) returns (r: Option<CrawlResult>)
      modifies this`visited, this`failed, this`results, this`lastRequestTime, this`robotsCache, this`processedUrls
      ensures (State(), r) == CrawlStep(old(State()), net, url, now, delay, crawlMethod, services)
    {
      if url in visited || url in failed {
        return None;
      }
      visited := visited + {url};
      var parsed := Parse(url);
      if parsed.Err? {
        return None;
      }
      r := Gate(net, url, parsed.value, now);
    }

    /** The robots check and the pacing sleep of `_crawl_url`, then the fetch. */
    method Gate(net: Network, url: string, p: UrlParts, now: real) returns (r: Option<CrawlResult>)
      modifies this`failed, this`results, this`lastRequestTime, this`robotsCache, this`processedUrls
      ensures (State(), r) == GateStep(old(State()), net, url, p, now, delay, crawlMethod, services)
    {
      var host := p.netloc;
      var allowed := CheckRobotsTxt(net, host);
      if !allowed {
        return None;
      }
      var t := now;
      if host in lastRequestTime && now - lastRequestTime[host] < delay {
        t := lastRequestTime[host] + delay;
      }
      lastRequestTime := lastRequestTime[host := t];
      r := Fetch(net, url, p, t);
    }

    /** The GET of `_crawl_url` at time `t` and the guards on its response. */
    method Fetch(net: Network, url: string, p: UrlParts, t: real) returns (r: Option<CrawlResult>)
      modifies this`failed, this`results, this`processedUrls
      ensures (State(), r) == FetchStep(old(State()), net, url, p, t, crawlMethod, services)
    {
      if url !in net.get || net.get[url].status != 200 {
        failed := failed + {url};
        return None;
      }
      r := Page(net.get[url], url, p, t);
    }

    /** What `_crawl_url` does with a 200 response. */
    method Page(resp: Response, url: string, p: UrlParts, t: real) returns (r: Option<CrawlResult>)
      modifies this`failed, this`results, this`processedUrls
      ensures (State(), r) == PageStep(old(State()), resp, url, p, crawlMethod, t, services)
    {
      var contentType := Lower(resp.contentType);
      if !Contains(contentType, "text/html") || resp.extracted.None? || |Strip(resp.extracted.value)| < 100 {
        return None;
      }
      r := Accept(resp, resp.extracted.value, contentType, url, p, t);
    }

    /** The links of an accepted page, then its result is recorded and counted. */
    method Accept(resp: Response, extracted: string, contentType: string, url: string, p: UrlParts, t: real)
      returns (r: Option<CrawlResult>)
      modifies this`failed, this`results, this`processedUrls
      ensures (State(), r) == ResultStep(old(State()), resp, extracted, contentType, url, p, crawlMethod, t, services)
    {
      var links := ExtractLinks(resp.anchors, p.netloc);
      if links.Err? {
        failed := failed + {url};
        return None;
      }
      var title := if resp.title.Some? then Strip(resp.title.value) else p.path;
      var result := MakeResult(url, p.netloc, contentType, extracted, title, links.value, crawlMethod, t, services);
      results := results + [result];
      processedUrls := processedUrls + 1;
      r := Some(result);
    }

    /** `_add_discovered_urls(urls)`. */
    method AddDiscoveredUrls(urls: seq<string>)
      modifies this`queue
      ensures queue == Enqueue(old(queue), urls, visited, failed)
    {
      var i := 0;
      while i < |urls|
        invariant 0 <= i <= |urls|
        invariant Enqueue(old(queue), urls, visited, failed) == Enqueue(queue, urls[i..], visited, failed)
      {
        assert urls[i..][0] == urls[i] && urls[i..][1..] == urls[i + 1..];
        if urls[i] !in visited && urls[i] !in failed && |queue| < 1000 {
          queue := queue + [urls[i]];
        }
        i := i + 1;
      }
      assert urls[i..] == [];
    }

    /** `_discover_subdomains`. */
    method DiscoverSubdomains(net: Network)
      modifies this`discoveredSubdomains
      ensures discoveredSubdomains ==
        Probe(net, CommonSubdomains, BaseDomain(domain), baseUrl, maxSubdomains, old(discoveredSubdomains), 0).0
    {
      var base := BaseDomain(domain);
      var count: nat := 0;
      var i := 0;
      while i < |CommonSubdomains|
        invariant 0 <= i <= |CommonSubdomains|
        invariant Probe(net, CommonSubdomains, base, baseUrl, maxSubdomains, old(discoveredSubdomains), 0)
          == Probe(net, CommonSubdomains[i..], base, baseUrl, maxSubdomains, discoveredSubdomains, count)
      {
        assert CommonSubdomains[i..][0] == CommonSubdomains[i] && CommonSubdomains[i..][1..] == CommonSubdomains[i + 1..];
        if count >= maxSubdomains {
          break;
        }
        var u := SubdomainUrl(CommonSubdomains[i], base);
        if u != baseUrl && u in net.head && net.head[u] == 200 {
          discoveredSubdomains := discoveredSubdomains + {u};
          count := count + 1;
        }
        i := i + 1;
      }
    }

    /** Appends `n` distinct members of `xs`, in no particular order (Python's set order). */
    method AppendMembers(xs: set<string>, n: nat)
      requires n <= |xs|
      modifies this`queue
      ensures |queue| == |old(queue)| + n && queue[..|old(queue)|] == old(queue)
      ensures Elems(queue[|old(queue)|..]) <= xs && NoDuplicates(queue[|old(queue)|..])
      ensures n == |xs| ==> Elems(queue[|old(queue)|..]) == xs
    {
      var rest := xs;
      var k := 0;
      ghost var added: seq<string> := [];
      while k < n
        invariant k == |added| <= n
        invariant queue == old(queue) + added
        invariant rest <= xs && Elems(added) == xs - rest && NoDuplicates(added)
        invariant |added| + |rest| == |xs|
      {
        var u :| u in rest;
        assert forall i :: 0 <= i < |added| ==> added[i] in Elems(added);
        assert Elems(added + [u]) == Elems(added) + {u};
        queue := queue + [u];
        added := added + [u];
        rest := rest - {u};
        k := k + 1;
      }
      assert queue[|old(queue)|..] == added;
      if n == |xs| {
        assert rest == {};
      }
    }

    /** `_setup_manual_crawling`: the base URL, then every discovered subdomain. */
    method SetupManualCrawling(net: Network)
      modifies this`queue, this`discoveredSubdomains
      ensures discoveredSubdomains ==
        Probe(net, CommonSubdomains, BaseDomain(domain), baseUrl, maxSubdomains, old(discoveredSubdomains), 0).0
      ensures |queue| == |old(queue)| + 1 + |discoveredSubdomains|
      ensures queue[..|old(queue)| + 1] == old(queue) + [baseUrl]
      ensures Elems(queue[|old(queue)| + 1..]) == discoveredSubdomains && NoDuplicates(queue[|old(queue)| + 1..])
    {
      queue := queue + [baseUrl];
      DiscoverSubdomains(net);
      AppendMembers(discoveredSubdomains, |discoveredSubdomains|);
    }
  
    /** Starting point of `crawl`: sitemap URLs when preferred and found, else manual seeding. */
    method ChooseStart(net: Network, depth: nat)
      modifies this`queue, this`discoveredSubdomains, this`sitemapUrls, this`crawlMethod, sitemapDiscovery
      ensures crawlMethod == if preferSitemap && sitemapUrls != {} then "sitemap" else "manual"
      ensures preferSitemap ==>
        (sitemapUrls == sitemapDiscovery.discoveredUrls ==
           DiscoverLoop(net, sitemapDiscovery.valid, sitemapDiscovery.maxPages, sitemapDiscovery.sitemapLocations,
                        old(sitemapDiscovery.discoveredUrls), depth))
      ensures !preferSitemap ==> sitemapUrls == old(sitemapUrls)
      ensures |old(queue)| <= |queue| && queue[..|old(queue)|] == old(queue)
      ensures crawlMethod == "sitemap" ==>
        |queue| == |old(queue)| + SliceLen(maxPages, |sitemapUrls|)
        && Elems(queue[|old(queue)|..]) <= sitemapUrls && NoDuplicates(queue[|old(queue)|..])
        && discoveredSubdomains == old(discoveredSubdomains)
      ensures crawlMethod == "manual" ==>
        discoveredSubdomains ==
          Probe(net, CommonSubdomains, BaseDomain(domain), baseUrl, maxSubdomains, old(discoveredSubdomains), 0).0
        && |queue| == |old(queue)| + 1 + |discoveredSubdomains| && queue[|old(queue)|] == baseUrl
        && Elems(queue[|old(queue)| + 1..]) == discoveredSubdomains
    {
      if preferSitemap {
        sitemapUrls := sitemapDiscovery.DiscoverSitemaps(net, depth);
        if sitemapUrls != {} {
          crawlMethod := "sitemap";
          AppendMembers(sitemapUrls, SliceLen(maxPages, |sitemapUrls|));
          return;
        }
      }
      crawlMethod := "manual";
      ghost var q := queue;
      SetupManualCrawling(net);
      assert queue[..|q| + 1][|q|] == baseUrl;
      assert queue[..|q|] == queue[..|q| + 1][..|q|];
    }

    /** The results of one batch, crawled one URL after another from clock reading `tick`. */
    method CrawlBatch(net: Network, batch: seq<string>, clock: nat -> real, tick: nat) returns (found: seq<CrawlResult>)
      modifies this`visited, this`failed, this`results, this`lastRequestTime, this`robotsCache, this`processedUrls
      ensures (State(), found) == CrawlRun(old(State()), batch, |batch|, tick, Stepper(net, clock, delay, crawlMethod, services))
    {
      found := [];
      ghost var step := Stepper(net, clock, delay, crawlMethod, services);
      var i := 0;
      while i < |batch|
        invariant 0 <= i <= |batch|
        invariant (State(), found) == CrawlRun(old(State()), batch, i, tick, step)
      {
        ghost var before, found0 := State(), found;
        var r := CrawlUrl(net, batch[i], clock(tick + i));
        CrawlRunGrows(old(State()), batch, i, tick, step, before, found0, State(), r);
        if r.Some? {
          found := found + [r.value];
        }
        assert found == found0 + Found(r);
        i := i + 1;
      }
    }

    /** The manual-mode feedback: `_add_discovered_urls` on the links of each result. */
    method FeedLinks(found: seq<CrawlResult>)
      modifies this`queue
      ensures queue == FeedQueue(old(queue), found, visited, failed)
    {
      var i := 0;
      while i < |found|
        invariant 0 <= i <= |found|
        invariant FeedQueue(old(queue), found, visited, failed) == FeedQueue(queue, found[i..], visited, failed)
      {
        assert found[i..][0] == found[i] && found[i..][1..] == found[i + 1..];
        if found[i].links != [] {
          AddDiscoveredUrls(found[i].links);
        }
        i := i + 1;
      }
      assert found[i..] == [];
    }

    /**
     * The batch loop of `crawl()`: while URLs are queued and fewer than
     * `maxPages` results are kept, check the memory (reading `memory(rounds)`),
     * pop `min(maxConcurrent, |queue|)` URLs, crawl them one after another
     * (the n-th URL of the whole loop at `clock(n)`) and, in manual mode,
     * queue the links of their results. The URLs popped are returned as
     * `popped`, in order.
     */
    method ProcessQueue(net: Network, clock: nat -> real, memory: nat -> Option<nat>)
      returns (rounds: nat, ghost popped: seq<string>, ghost added: seq<CrawlResult>)
      requires maxConcurrent >= 0
      requires Consistent(State()) && RobotsSound(robotsCache, net)
      modifies this`visited, this`failed, this`results, this`lastRequestTime, this`robotsCache, this`processedUrls,
               this`queue
      ensures Consistent(State()) && RobotsSound(robotsCache, net)
      ensures queue == [] || |results| >= maxPages || maxConcurrent == 0 || !MemoryOk(memory(rounds), maxMemoryMb)
      ensures |results| <= Max(|old(results)|, maxPages - 1 + maxConcurrent)
      ensures LoopInv(old(results), old(visited), old(queue), Elems(old(queue)) + AllAnchors(net), AllAnchors(net),
                      crawlMethod == "manual", results, visited, queue, popped, added)
    {
      ghost var anchors := AllAnchors(net);
      ghost var universe := Elems(queue) + anchors;
      added := [];
      rounds := 0;
      popped := [];
      var tick := 0;
      while queue != [] && |results| < maxPages
        invariant Consistent(State()) && RobotsSound(robotsCache, net)
        invariant LoopInv(old(results), old(visited), old(queue), universe, anchors, crawlMethod == "manual",
                          results, visited, queue, popped, added)
        invariant |results| <= Max(|old(results)|, maxPages - 1 + maxConcurrent)
        decreases |universe - visited|, |queue|
      {
        var size := if maxConcurrent < |queue| then maxConcurrent else |queue|;
        if !MemoryOk(memory(rounds), maxMemoryMb) || size == 0 {
          break;
        }
        ghost var batch := queue[..size];
        var found := PopAndRun(net, clock, tick, size, old(results), old(visited), old(queue), universe, anchors,
                               popped, added);
        tick := tick + size;
        popped := popped + batch;
        added := added + found;
        rounds := rounds + 1;
      }
    }

    /**
     * The body of the batch loop: pop `size` URLs off the queue and run them
     * as one batch. It keeps `LoopInv` and makes progress toward the end of
     * the loop.
     */
    method PopAndRun(net: Network, clock: nat -> real, tick: nat, size: nat, ghost r0: seq<CrawlResult>,
                     ghost v0: set<string>, ghost q0: seq<string>, ghost universe: set<string>,
                     ghost anchors: set<string>, ghost popped: seq<string>, ghost added: seq<CrawlResult>)
      returns (found: seq<CrawlResult>)
      requires 0 < size <= |queue|
      requires Consistent(State()) && RobotsSound(robotsCache, net)
      requires anchors == AllAnchors(net) && anchors <= universe
      requires LoopInv(r0, v0, q0, universe, anchors, crawlMethod == "manual", results, visited, queue, popped, added)
      modifies this`visited, this`failed, this`results, this`lastRequestTime, this`robotsCache, this`processedUrls,
               this`queue
      ensures Consistent(State()) && RobotsSound(robotsCache, net)
      ensures LoopInv(r0, v0, q0, universe, anchors, crawlMethod == "manual", results, visited, queue,
                      popped + old(queue)[..size], added + found)
      ensures |results| == |old(results)| + |found| && |found| <= size
      ensures crawlMethod == "manual" ==> old(queue)[size..] <= queue && |queue| <= Max(|old(queue)| - size, 1000)
      ensures crawlMethod != "manual" ==> queue == old(queue)[size..]
      ensures |universe - visited| < |universe - old(visited)| || (visited == old(visited) && |queue| < |old(queue)|)
    {
      var batch := queue[..size];
      ghost var results0, visited0, queue0 := results, visited, queue;
      queue := queue[size..];
      found := RunBatch(net, batch, clock, tick);
      RoundKeepsLoopInv(r0, v0, q0, universe, anchors, crawlMethod == "manual",
                        results0, visited0, queue0, popped, added, size, found, results, visited, queue);
    }

    /**
     * One batch of `crawl()`: its URLs crawled one after another from clock
     * tick `tick` and, in manual mode, the links of their results queued.
     */
    method RunBatch(net: Network, batch: seq<string>, clock: nat -> real, tick: nat) returns (found: seq<CrawlResult>)
      requires Consistent(State()) && RobotsSound(robotsCache, net)
      modifies this`visited, this`failed, this`results, this`lastRequestTime, this`robotsCache, this`processedUrls,
               this`queue
      ensures Consistent(State()) && RobotsSound(robotsCache, net)
      ensures visited == old(visited) + Elems(batch)
      ensures results == old(results) + found && |found| <= |batch|
      ensures LinksOf(found) <= AllAnchors(net)
      ensures (State(), found) == CrawlRun(old(State()), batch, |batch|, tick, Stepper(net, clock, delay, crawlMethod, services))
      ensures crawlMethod == "manual" ==> queue == FeedQueue(old(queue), found, visited, failed)
      ensures crawlMethod == "manual" ==> old(queue) <= queue && |queue| <= Max(|old(queue)|, 1000)
      ensures crawlMethod == "manual" ==> Elems(queue) <= Elems(old(queue)) + LinksOf(found)
      ensures crawlMethod != "manual" ==> queue == old(queue)
      ensures Elems(batch) <= old(visited) ==> found == [] && queue == old(queue)
    {
      BatchFacts(State(), net, batch, tick, clock, delay, crawlMethod, services);
      found := CrawlBatch(net, batch, clock, tick);
      if crawlMethod == "manual" {
        ghost var q := queue;
        FeedLinks(found);
        FeedQueueFacts(q, found, visited, failed);
      }
    }

    /**
     * `crawl()`: choose the start (sitemap or manual, `ChooseStart`), create
     * the semaphore, which raises for a negative `maxConcurrent` (None), then
     * run the batch loop and return the results.
     */
    method Crawl(net: Network, depth: nat, clock: nat -> real, memory: nat -> Option<nat>)
      returns (r: Option<seq<CrawlResult>>)
      requires Consistent(State()) && RobotsSound(robotsCache, net)
      modifies this, sitemapDiscovery
      ensures r.Some? <==> maxConcurrent >= 0
      ensures crawlMethod == if preferSitemap && sitemapUrls != {} then "sitemap" else "manual"
      ensures r.None? ==> State() == old(State())
      ensures r.Some? ==> r.value == results && Consistent(State()) && RobotsSound(robotsCache, net)
      ensures r.Some? ==>
        queue == [] || |results| >= maxPages || maxConcurrent == 0 || exists n :: !MemoryOk(memory(n), maxMemoryMb)
      ensures |old(results)| <= |results| && results[..|old(results)|] == old(results)
      ensures |results| <= Max(|old(results)|, maxPages - 1 + maxConcurrent)
      ensures LinksOf(results[|old(results)|..]) <= AllAnchors(net)
      ensures old(visited) <= visited
    {
      ChooseStart(net, depth);
      if maxConcurrent < 0 {
        return None;
      }
      var rounds, popped, added := ProcessQueue(net, clock, memory);
      r := Some(results);
    }
  }
}
