/**
 * How the scraping API shapes crawl results for its response
 * (backend/api.py): the optional parts each result carries, and the
 * per-subdomain summary of the results whose host is not the base domain.
 */
module ApiResults {
  import opened Wrappers
  import opened Text
  import opened Urls
  import opened Crawler
  import opened ApiCache
  import opened Sequences

  /** The `metadata` dictionary `_crawl_url` attaches to a result. */
  datatype Metadata = Metadata(domain: string, statusCode: int, contentType: string, contentLength: nat,
                               crawlMethod: string)

  function MetadataOf(r: CrawlResult): Metadata
  {
    Metadata(r.domain, r.statusCode, r.contentType, r.contentLength, r.crawlMethod)
  }

  datatype CrawlResultResponse = CrawlResultResponse(
    url: string,
    title: string,
    content: Option<string>,
    summary: Option<string>,
    metadata: Option<Metadata>,
    crawlTime: real,
    contentHash: string,
    wordCount: nat,
    links: Option<seq<string>>,
    error: Option<string>)

  function Respond(r: CrawlResult, req: ScrapeRequest): CrawlResultResponse
  {
    CrawlResultResponse(
      r.url, r.title,
      if req.includeContent then Some(r.content) else None,
      Some(r.summary),
      if req.includeMetadata then Some(MetadataOf(r)) else None,
      r.crawlTime, r.contentHash, r.wordCount,
      if req.includeLinks then Some(r.links) else None,
      None)
  }

  /**
   * `filter_response_data`: one response per result, in order; content,
   * metadata and links are nulled exactly when their flag is off, and every
   * other field is carried over.
   */
  function FilterResponseData(results: seq<CrawlResult>, req: ScrapeRequest): (out: seq<CrawlResultResponse>)
    ensures |out| == |results|
    ensures forall i :: 0 <= i < |out| ==>
      out[i].url == results[i].url && out[i].title == results[i].title
      && out[i].summary == Some(results[i].summary) && out[i].contentHash == results[i].contentHash
      && out[i].wordCount == results[i].wordCount && out[i].crawlTime == results[i].crawlTime
      && out[i].error.None?
    ensures forall i :: 0 <= i < |out| ==>
      (out[i].content.Some? <==> req.includeContent) && (out[i].content.Some? ==> out[i].content.value == results[i].content)
    ensures forall i :: 0 <= i < |out| ==>
      (out[i].links.Some? <==> req.includeLinks) && (out[i].links.Some? ==> out[i].links.value == results[i].links)
    ensures forall i :: 0 <= i < |out| ==>
      (out[i].metadata.Some? <==> req.includeMetadata)
      && (out[i].metadata.Some? ==> out[i].metadata.value == MetadataOf(results[i]))
  {
    if results == [] then [] else [Respond(results[0], req)] + FilterResponseData(results[1..], req)
  }

  // ------------------------------------------------------------ subdomain summary

  datatype SubdomainResult = SubdomainResult(subdomain: string, pagesCrawled: nat, contentPreview: string,
                                             summary: string, error: Option<string>)

  /** The `netloc` of each result's URL; `urlparse` fails on a square bracket it refuses. */
  function Hosts(results: seq<CrawlResult>): (r: Result<seq<string>, ParseError>)
    ensures r.Ok? ==> |r.value| == |results|
    ensures r.Ok? ==> forall i :: 0 <= i < |results| ==>
                        Parse(results[i].url).Ok? && r.value[i] == Parse(results[i].url).value.netloc
    ensures r.Err? ==> exists i :: 0 <= i < |results| && Parse(results[i].url).Err?
  {
    if results == [] then Ok([])
    else
      match Parse(results[0].url)
      case Err(e) => Err(e)
      case Ok(p) =>
        match Hosts(results[1..])
        case Err(e) => Err(e)
        case Ok(rest) => Ok([p.netloc] + rest)
  }

  /** The non-base hosts in order of first appearance, after those already in `seen`. */
  function GroupOrder(hosts: seq<string>, base: string, seen: seq<string>): (r: seq<string>)
    requires NoDup(seen) && base !in seen
    ensures NoDup(r) && base !in r
    ensures forall h :: h in r <==> h in seen || (h in hosts && h != base)
  {
    if hosts == [] then seen
    else if hosts[0] == base || hosts[0] in seen then GroupOrder(hosts[1..], base, seen)
    else GroupOrder(hosts[1..], base, seen + [hosts[0]])
  }

  /**
   * `r` starts with `seen`; every later entry is one of the hosts, and the
   * later entries come in the order of their first appearance there.
   */
  predicate InFirstAppearance(hosts: seq<string>, seen: seq<string>, r: seq<string>)
  {
    && |seen| <= |r| && r[..|seen|] == seen
    && (forall i :: |seen| <= i < |r| ==> r[i] in hosts)
    && (forall i, j :: |seen| <= i < j < |r| ==>
          r[i] in hosts && r[j] in hosts && FirstPos(hosts, r[i]) < FirstPos(hosts, r[j]))
  }

  /** `GroupOrder` lists the new non-base hosts in the order of their first appearance. */
  lemma {:induction false} GroupOrderAppearance(hosts: seq<string>, base: string, seen: seq<string>)
    requires NoDup(seen) && base !in seen
    ensures InFirstAppearance(hosts, seen, GroupOrder(hosts, base, seen))
    decreases |hosts|, 1
  {
    if hosts == [] {
    } else if hosts[0] != base && hosts[0] !in seen {
      AppearanceOfNew(hosts, base, seen);
    } else {
      AppearanceOfSkipped(hosts, base, seen);
    }
  }

  /** The first host is new: it comes right after `seen`, ahead of every later one. */
  lemma {:induction false} AppearanceOfNew(hosts: seq<string>, base: string, seen: seq<string>)
    requires NoDup(seen) && base !in seen && hosts != [] && hosts[0] != base && hosts[0] !in seen
    ensures InFirstAppearance(hosts, seen, GroupOrder(hosts, base, seen))
    decreases |hosts|, 0
  {
    var r := GroupOrder(hosts, base, seen);
    GroupOrderAppearance(hosts[1..], base, seen + [hosts[0]]);
    NewHostFirst(hosts, seen, r);
  }

  /** An order that puts the first host right after `seen` and then follows the tail's order follows the whole. */
  lemma NewHostFirst(hosts: seq<string>, seen: seq<string>, r: seq<string>)
    requires hosts != [] && NoDup(r) && InFirstAppearance(hosts[1..], seen + [hosts[0]], r)
    ensures InFirstAppearance(hosts, seen, r)
  {
    var h, tail := hosts[0], hosts[1..];
    assert r[..|seen|] == (seen + [h])[..|seen|];
    assert r[|seen|] == h;
    forall i, j | |seen| <= i < j < |r|
      ensures r[i] in hosts && r[j] in hosts && FirstPos(hosts, r[i]) < FirstPos(hosts, r[j])
    {
      assert r[j] in tail && r[j] != r[|seen|];
      FirstPosOfTail(hosts, r[j]);
      if i > |seen| {
        assert r[i] in tail && r[i] != r[|seen|];
        FirstPosOfTail(hosts, r[i]);
      }
    }
  }

  /** A value first found in the tail is found one place later in the whole. */
  lemma FirstPosOfTail(xs: seq<string>, x: string)
    requires xs != [] && x in xs[1..] && x != xs[0]
    ensures x in xs && FirstPos(xs, x) == FirstPos(xs[1..], x) + 1
  {
  }

  /** The first host is the base or already seen: the order is the tail's, one place later. */
  lemma {:induction false} AppearanceOfSkipped(hosts: seq<string>, base: string, seen: seq<string>)
    requires NoDup(seen) && base !in seen && hosts != [] && (hosts[0] == base || hosts[0] in seen)
    ensures InFirstAppearance(hosts, seen, GroupOrder(hosts, base, seen))
    decreases |hosts|, 0
  {
    var r := GroupOrder(hosts, base, seen);
    var h, tail := hosts[0], hosts[1..];
    GroupOrderAppearance(tail, base, seen);
    forall i | |seen| <= i < |r|
      ensures r[i] in tail && r[i] != h
    {
      assert r[i] != base && (r[i] in seen ==> r[i] in r[..|seen|]);
    }
  }

  /** The results whose host is `h`, in order. */
  function Group(results: seq<CrawlResult>, hosts: seq<string>, h: string): (g: seq<CrawlResult>)
    requires |hosts| == |results|
    ensures |g| == multiset(hosts)[h]
    ensures SubseqOf(g, results)
  {
    if results == [] then []
    else
      assert hosts == [hosts[0]] + hosts[1..];
      assert results == [results[0]] + results[1..];
      var rest := Group(results[1..], hosts[1..], h);
      if hosts[0] == h then
        SubseqOfCons(results[0], rest, results[1..]);
        [results[0]] + rest
      else
        SubseqOfSkip(results[0], rest, results[1..]);
        rest
  }

  /** A group holds exactly the results whose URL is on its host. */
  lemma {:induction false} GroupMembers(results: seq<CrawlResult>, h: string)
    requires Hosts(results).Ok?
    ensures forall x :: x in Group(results, Hosts(results).value, h) <==>
              x in results && Parse(x.url).Ok? && Parse(x.url).value.netloc == h
  {
    if results != [] {
      var hosts := Hosts(results).value;
      assert Parse(results[0].url).Ok? && hosts[0] == Parse(results[0].url).value.netloc;
      assert Hosts(results[1..]).Ok? && Hosts(results[1..]).value == hosts[1..];
      GroupMembers(results[1..], h);
      assert results == [results[0]] + results[1..];
    }
  }

  /** `s[:n] + "..."` when `s` is longer than `n`. */
  function Ellipsize(s: string, n: nat): (r: string)
    ensures |r| <= n + 3
    ensures |s| <= n ==> r == s
    ensures |s| > n ==> r == s[..n] + "..."
  {
    if |s| > n then s[..n] + "..." else s
  }

  /** The first 200 characters of each non-empty content. */
  function Previews(group: seq<CrawlResult>): seq<string>
  {
    if group == [] then []
    else (if group[0].content != [] then [Take(group[0].content, 200)] else []) + Previews(group[1..])
  }

  /** Each non-empty summary. */
  function Summaries(group: seq<CrawlResult>): seq<string>
  {
    if group == [] then []
    else (if group[0].summary != [] then [group[0].summary] else []) + Summaries(group[1..])
  }

  /** One `SubdomainResult`: the host, its page count, and the preview and summary cut to 500 and 300 characters plus "...". */
  function Summarize(h: string, group: seq<CrawlResult>): (r: SubdomainResult)
    ensures r.subdomain == h && r.pagesCrawled == |group| && r.error.None?
    ensures |r.contentPreview| <= 503 && |r.summary| <= 303
  {
    SubdomainResult(h, |group|, Ellipsize(Join(Previews(group), " "), 500), Ellipsize(Join(Summaries(group), " "), 300), None)
  }

  function SummarizeAll(results: seq<CrawlResult>, hosts: seq<string>, order: seq<string>): (out: seq<SubdomainResult>)
    requires |hosts| == |results|
    ensures |out| == |order|
    ensures forall i :: 0 <= i < |out| ==>
              out[i].subdomain == order[i] && out[i].pagesCrawled == multiset(hosts)[order[i]]
              && |out[i].contentPreview| <= 503 && |out[i].summary| <= 303
  {
    if order == [] then [] else [Summarize(order[0], Group(results, hosts, order[0]))] + SummarizeAll(results, hosts, order[1..])
  }

  /**
   * `extract_subdomain_results`: results grouped by the host of their URL,
   * the base domain's own results left out, groups in order of first
   * appearance.
   */
  function ExtractSubdomainResults(results: seq<CrawlResult>, base: string): (r: Result<seq<SubdomainResult>, ParseError>)
    ensures r.Err? <==> exists i :: 0 <= i < |results| && Parse(results[i].url).Err?
  {
    match Hosts(results)
    case Err(e) => Err(e)
    case Ok(hosts) => Ok(SummarizeAll(results, hosts, GroupOrder(hosts, base, [])))
  }

  /**
   * One entry per host other than the base domain, each host once; each
   * counts exactly the results on that host, and the preview and summary
   * are at most 500 and 300 characters plus an ellipsis.
   */
  lemma SubdomainResultsGroupByHost(results: seq<CrawlResult>, base: string)
    requires ExtractSubdomainResults(results, base).Ok?
    ensures forall i :: 0 <= i < |ExtractSubdomainResults(results, base).value| ==>
              var e := ExtractSubdomainResults(results, base).value[i];
              e.subdomain != base && e.subdomain in Hosts(results).value
              && e.pagesCrawled == multiset(Hosts(results).value)[e.subdomain]
              && |e.contentPreview| <= 503 && |e.summary| <= 303
    ensures forall i, j :: 0 <= i < j < |ExtractSubdomainResults(results, base).value| ==>
              ExtractSubdomainResults(results, base).value[i].subdomain
              != ExtractSubdomainResults(results, base).value[j].subdomain
    ensures forall k :: 0 <= k < |Hosts(results).value| && Hosts(results).value[k] != base ==>
              exists i :: 0 <= i < |ExtractSubdomainResults(results, base).value|
                          && ExtractSubdomainResults(results, base).value[i].subdomain == Hosts(results).value[k]
  {
    var hosts := Hosts(results).value;
    var order := GroupOrder(hosts, base, []);
    var out := ExtractSubdomainResults(results, base).value;
    assert out == SummarizeAll(results, hosts, order);
    forall i, j | 0 <= i < j < |out|
      ensures out[i].subdomain != out[j].subdomain
    {
      assert out[i].subdomain == order[i] && out[j].subdomain == order[j];
    }
    forall k | 0 <= k < |hosts| && hosts[k] != base
      ensures exists i :: 0 <= i < |out| && out[i].subdomain == hosts[k]
    {
      assert hosts[k] in order;
      var i :| 0 <= i < |order| && order[i] == hosts[k];
      assert out[i].subdomain == hosts[k];
    }
  }
}
