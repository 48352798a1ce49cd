# Crawl engine and prompt-service core, in Dafny

This project models the core of a web-crawling and prompt-engineering
repository and proves properties of that model.

The main part is the crawl engine of `backend/crawler.py`:

- **URL filter.** `_is_valid_url`, on top of a model of `urlparse`.
- **Sitemap discovery.** The 22 fixed candidate locations, sitemaps declared in robots.txt, content sniffing, and the sitemapindex, urlset, RSS, Atom and HTML parsers.
- **Robots gate.** A per-host memo with deliberately coarse substring rules.
- **Fetch guard.** `_crawl_url`, including link extraction.
- **Crawl loop.** The bounded queue, subdomain probing, the choice between sitemap-based and manual crawling, and the batch loop with its page, queue and memory limits.
- **Fallback summariser.** The extractive summary used when the transformers pipeline is unavailable.

Around the crawl engine sit the in-memory data structures and validators of the services built on it:

- `backend/api.py`: the LRU cache with a time-to-live (TTL), cache keys and invalidation, and response shaping.
- `backend/app.py`: the TTL cache, the sliding-window rate limiter, the cleanup sweep, the suggestion merge, and the comparison and batch-evaluation aggregates.
- `api_1.py`: the in-memory store, the technique validator, template rendering, the safety check and the token estimate.
- The helpers of `backend/utils.py` and `templates/miscellaneous/utils_.py`.
- The two prompt template managers: `backend/prompt_templates.py` and `prompt_templates.py`.
- `templates/miscellaneous/performance_utils.py`: the metrics counters.
- Two small validation files: `templates/miscellaneous/api_2.py` (input sanitiser and settings check) and `backend/config.py` (settings).
- `src/main.py`: the library submission and review state machine.
- `prompt_api/celery_worker.py`: JSON extraction from a model reply.

How the model is written:

- **Pure code** (filters, parsers, validators, trend and candidate rules) becomes functions with named results, plus lemmas relating them.
- **State updated in place** becomes classes whose fields the methods reassign, with each new state stated in terms of the old one:
  - the crawler (`Crawler.EnhancedWebCrawler`);
  - the caches (`ApiCache.MemoryCache`, `AppBackend.AppState`);
  - the rate limiters;
  - the template managers;
  - the metrics collectors;
  - the library database (`PromptLibrary.Library`).
- **Loops** become methods with invariants, proved against specification functions. Examples are the crawl batch loop, the subdomain probe, the retry loop, the cache eviction loop and the suggestion merge.
- **The network** is an oracle: a map from URL to the response a GET would receive, plus the HEAD statuses. What the foreign parsers make of a body is part of that response.
- **Clocks, md5, `json.loads`, `str.format` and memory samples** are parameters.

What the verified model shows includes:

- No URL yields two crawl results.
- The crawl result count stays below the page cap plus the batch size.
- The cache key sets stay equal, and evictions come from the least recently used end.
- Rate-limit counters never exceed their limit.
- The running success rate equals successes over uses.
- Optimisation candidates come out ranked by score, and the ranking keeps them all.
- The JSON extraction returns the leftmost fenced object, else the widest braced span, and is idempotent.

Floats are Dafny `real` values. String lower-casing is ASCII.

## Model

| member | source | states |
|---|---|---|
| Urls.Parse | backend/crawler.py:379-381 | the `urlparse` call `_is_valid_url` makes, as Python 3.12 does it: an error outcome (the `ValueError` the `try` catches) for a netloc with one square bracket but not the other, or whose bracketed host is neither an IPv6 address nor a well-formed `v...` future address; on success a parsed path holds no '?', '#' or newline, a parsed host no '/', '?' or '#', and a host with '[' also has ']' and an accepted bracketed address |
| Urls.NetlocError | backend/crawler.py:379-381 | `urlsplit`'s bracket checks: the unbalanced-bracket error exactly when one bracket is present without the other; no error on a host with '[' means it has ']' and `_check_bracketed_host` accepts the bracketed text |
| Urls.PlainUrlParts | backend/crawler.py:379-381 | `Parse`: `scheme://netloc/path` with a lower-case scheme and no query, fragment or params parses to exactly those parts, unless the bracket checks raise |
| Urls.NonIpBracketRefused | backend/crawler.py:379-381 | `NetlocError`: bracketed text with neither ':' nor '.' that does not start with 'v' is refused as no IP address |
| Urls.BracketedNameRefused | backend/crawler.py:374-381 | `IsValidUrl`: a URL such as `http://[x].example.com/p` makes `urlparse` raise, so `_is_valid_url` refuses it whatever the domain |
| Urls.ValidUrlIsSameSite | backend/crawler.py:375-391 | an accepted URL is non-empty, parses, has a scheme and a host, and the host equals the domain, is a subdomain of it or a parent domain of it |
| Urls.RefusedUrls | backend/crawler.py:375-391 | the empty URL, a URL without scheme and a URL on an unrelated host are refused |
| Urls.ExtensionRefused | backend/crawler.py:393-396 | a path ending, in any capitalisation, in one of the 21 listed extensions is refused |
| Urls.DenylistedPathRefused | backend/crawler.py:398-406 | a lower-cased path containing any of the 21 denylisted segments is refused |
| Urls.QueryEntriesNeverMatch | backend/crawler.py:398-406 | the entries '/search?', '/filter?' and '/sort?' can never match, because a parsed path holds no '?' |
| Crawler.MemoryOk | backend/crawler.py:67-73 | the check passes when the memory reading fails, else exactly when the resident size is below `max_memory_mb` mebibytes |
| Crawler.RobotsMemo | backend/crawler.py:699-719 | asking about a host memoises it and leaves every other memoised answer unchanged |
| Crawler.RobotsMemoSound | backend/crawler.py:699-719 | the memo stays faithful to the network, and the answer for the host is the robots rule applied to its robots.txt (fail-open on non-200 and errors) |
| Crawler.DisallowAnyPathClosesHost | backend/crawler.py:708-710 | the rule is coarse: a robots.txt for all agents that disallows only "/private" closes the whole host |
| Crawler.RequestTime | backend/crawler.py:591-599 | a request goes out no earlier than now and no earlier than the host's previous request plus the delay, and at once when the delay has already passed |
| Crawler.KeptLinksMembers | backend/crawler.py:669-687 | the kept links are exactly the anchors on the page's site that do not end in a listed extension |
| Crawler.Dedup | backend/crawler.py:689 | what `set` keeps of a list: each link once, exactly the links not already seen |
| Crawler.ExtractLinksFilters | backend/crawler.py:669-689 | `ExtractLinks`: link extraction fails exactly when an anchor does not parse; otherwise it returns each same-site, non-denylisted anchor once |
| Crawler.FirstLinks | backend/crawler.py:652 | at most 10 links, a prefix of the page's links |
| Crawler.FetchStepEffect | backend/crawler.py:601-667 | `FetchStep`: the fetch leaves visited, the robots memo and the timestamps alone, may add only the URL to failed, and appends and counts exactly the result it returns |
| Crawler.CrawlStepSkipsKnown | backend/crawler.py:583-584 | `CrawlStep`: a URL already visited or failed yields nothing and changes nothing |
| Crawler.CrawlStepMarks | backend/crawler.py:583-667 | `CrawlStep`: a new URL is marked visited before anything is fetched; a result, when there is one, is for that URL, appended and counted in `processed_urls` |
| Crawler.CrawlStepResult | backend/crawler.py:601-662 | `CrawlStep`: a result needs status 200, a text/html content type and at least 100 stripped extracted characters; its content is the first 2000 characters while length and word count come from the whole text; at most 10 links |
| Crawler.FetchStepLinks | backend/crawler.py:630-662 | `FetchStep`: the links of a result are anchors of the fetched page that pass the link test |
| Crawler.CrawlStepLinks | backend/crawler.py:581-667 | `CrawlStep`: the links of a result are anchors of the page it came from, on the site of its URL |
| Crawler.CrawlStepConsistent | backend/crawler.py:581-667 | `CrawlStep`: failed URLs stay among the visited, every result is for a visited URL that did not fail, no URL has two results, and `processed_urls` counts the results |
| Crawler.CrawlStepRobots | backend/crawler.py:586-588 | `GateStep within CrawlStep`: the robots memo stays faithful; a closed host marks the URL visited and yields nothing |
| Crawler.CrawlStepPacing | backend/crawler.py:591-599 | `GateStep within CrawlStep`: only the URL host's timestamp changes, to a time no earlier than now and than its previous request plus the delay |
| Crawler.EnqueueFacts | backend/crawler.py:691-697 | `Enqueue`: the queue grows only at its end, by discovered URLs neither visited nor failed, never past 1000 by this route; below 1000 every such URL is queued |
| Crawler.FeedQueueFacts | backend/crawler.py:508-512 | `FeedQueue`: feeding back a batch keeps the queue as a prefix, adds only links of the batch's results and respects the cap |
| Crawler.ProbeFacts | backend/crawler.py:546-579 | `Probe`: the probe never counts past `max_subdomains`, adds only answering `https://{name}.{domain}` URLs other than the base URL, and while below the limit adds every one that answers 200 |
| Crawler.CrawlStepRecords | backend/crawler.py:581-667 | `CrawlStep`: one URL of a batch ends up visited, failures stay among the visited, and its result (if any) is appended |
| Crawler.CrawlRunSound | backend/crawler.py:501-506 | `CrawlRun`: a batch crawled one URL after another keeps the state consistent and the robots memo faithful |
| Crawler.CrawlRunVisits | backend/crawler.py:501-506 | `CrawlRun`: a batch marks exactly its URLs visited |
| Crawler.CrawlRunResults | backend/crawler.py:501-506 | `CrawlRun`: a batch appends exactly what it returns, at most one result per URL |
| Crawler.CrawlRunLinks | backend/crawler.py:501-506 | `CrawlRun`: the links of a batch's results are anchors the network serves |
| Crawler.CrawlRunKnown | backend/crawler.py:501-506 | `CrawlRun`: a batch of URLs already visited changes nothing and yields nothing |
| Crawler.BatchFacts | backend/crawler.py:496-512 | what one batch does to the crawler's state, gathered: consistency, the visited set, the results and their links |
| Crawler.RoundKeepsLoopInv | backend/crawler.py:496-524 | one round of the loop keeps its invariant and either visits a new URL or shortens the queue, so the loop ends |
| Crawler.EnhancedWebCrawler.constructor | backend/crawler.py:416-464 | the crawler starts with the given settings, an empty state, an empty queue and crawl method "unknown" |
| Crawler.EnhancedWebCrawler.Create | backend/crawler.py:416-438 | a base URL `urlparse` rejects gives its error and no crawler; otherwise a fresh crawler and sitemap discovery in their initial state |
| Crawler.EnhancedWebCrawler.CheckRobotsTxt | backend/crawler.py:699-719 | the memo becomes `RobotsMemo` of the old one and the answer is the memoised one |
| Crawler.EnhancedWebCrawler.CrawlUrl | backend/crawler.py:581-667 | the new state and the result are those of `CrawlStep` |
| Crawler.EnhancedWebCrawler.Gate | backend/crawler.py:586-599 | the robots gate and pacing, as `GateStep` |
| Crawler.EnhancedWebCrawler.Fetch | backend/crawler.py:603-606 | a non-200 answer or a missing one fails the URL and returns nothing; a 200 answer is handled as `Page` handles it, so the new state and result are `FetchStep`'s |
| Crawler.EnhancedWebCrawler.Page | backend/crawler.py:608-626 | a page that is not HTML, has no extracted text or less than 100 characters of it once stripped changes nothing and returns nothing; any other is handed to `Accept` (`PageStep`) |
| Crawler.EnhancedWebCrawler.Accept | backend/crawler.py:628-667 | a link extraction that raises fails the URL and returns nothing; otherwise the result built from the page is appended to the results and counted, and returned (`ResultStep`) |
| Crawler.EnhancedWebCrawler.AddDiscoveredUrls | backend/crawler.py:691-697 | the queue becomes `Enqueue` of the old queue |
| Crawler.EnhancedWebCrawler.DiscoverSubdomains | backend/crawler.py:546-579 | the discovered set becomes the probe's |
| Crawler.EnhancedWebCrawler.AppendMembers | backend/crawler.py:483-484 | `n` distinct members of the set are appended, all of them when `n` is its size |
| Crawler.EnhancedWebCrawler.SetupManualCrawling | backend/crawler.py:535-544 | the queue gets the base URL, then every discovered subdomain once |
| Crawler.EnhancedWebCrawler.ChooseStart | backend/crawler.py:473-491 | crawl method "sitemap" iff the sitemap is preferred and found, with at most `max_pages_per_domain` sitemap URLs queued; else "manual", with the base URL and the subdomains queued |
| Crawler.EnhancedWebCrawler.CrawlBatch | backend/crawler.py:501-506 | the new state and the results are those of `CrawlRun` over the batch |
| Crawler.EnhancedWebCrawler.FeedLinks | backend/crawler.py:508-512 | the queue becomes `FeedQueue` of the old queue |
| Crawler.EnhancedWebCrawler.ProcessQueue | backend/crawler.py:496-524 | the loop ends with an empty queue, enough results, zero concurrency or a failed memory check; results never exceed `max_pages_per_domain + max_concurrent - 1` beyond a start already past it; the starting queue is consumed from the front, in order, and the queue stays within the 1000 cap (or its starting length) |
| Crawler.EnhancedWebCrawler.PopAndRun | backend/crawler.py:500-512 | one round pops `min(max_concurrent, len(queue))` URLs from the front and crawls them; outside manual mode the rest of the queue is what remains, in manual mode it stays in front of whatever was fed back, and the queue stays within `max(len - popped, 1000)`; the loop invariant is kept |
| Crawler.EnhancedWebCrawler.RunBatch | backend/crawler.py:505-512 | the new crawler state and the results are `CrawlRun` of the batch (each URL crawled in turn, at successive clock readings); in manual mode the queue becomes `FeedQueue` of the old queue over those results (old queue kept in front, within the 1000 cap), otherwise it is unchanged; a batch visits exactly its URLs and appends at most one result per URL, whose links are served anchors |
| Crawler.EnhancedWebCrawler.Crawl | backend/crawler.py:466-533 | a negative concurrency raises before any fetch; otherwise the results only grow, stay consistent, stop at the loop's exit conditions and respect the page bound |
| Sitemap.WithTag | backend/crawler.py:302 | `findall` by tag keeps only elements carrying that tag |
| Sitemap.Find | backend/crawler.py:303 | `find('.//tag')` returns an element with that tag, if any |
| Sitemap.FindChild | backend/crawler.py:329 | `find('link')` returns a direct child with that tag, if any |
| Sitemap.RStripSlash | backend/crawler.py:171 | `base_url.rstrip('/')` ends in no slash |
| Sitemap.CandidateLocations | backend/crawler.py:178-209 | exactly 22 candidates: the 20 fixed suffixes under the base URL, in order, then the two on the www-toggled domain |
| Sitemap.Declarations | backend/crawler.py:245-248 | each robots.txt line is read on its own: stripped, matched case-insensitively against "sitemap:", the URL stripped |
| Sitemap.AppendDeclaredExtends | backend/crawler.py:237-252 | `AppendDeclared`: declared sitemaps are appended at the end only: the existing list stays a prefix, no duplicate is introduced, and every appended entry is a declared sitemap |
| Sitemap.AppendDeclaredCovers | backend/crawler.py:237-252 | `AppendDeclared`: every declared sitemap ends up in the list |
| Sitemap.AppendDeclaredKeeps | backend/crawler.py:237-252 | `AppendDeclared`: no candidate is lost |
| Sitemap.SitemapUrlsValid | backend/crawler.py:257-346 | `SitemapUrls`: every URL a sitemap yields, at any nesting depth, passes `_is_valid_url` |
| Sitemap.XmlUrlsValid | backend/crawler.py:295-346 | `XmlUrls`: every URL an XML sitemap yields passes `_is_valid_url` |
| Sitemap.IndexUrlsValid | backend/crawler.py:302-316 | `IndexUrls`: every URL a sitemap index yields passes `_is_valid_url` |
| Sitemap.UrlsetUrlsValid | backend/crawler.py:319-327 | `UrlsetUrls`: every URL a urlset yields passes `_is_valid_url` |
| Sitemap.RssUrlsValid | backend/crawler.py:330-336 | `RssUrls`: every RSS item link kept passes `_is_valid_url` |
| Sitemap.AtomUrlsValid | backend/crawler.py:338-344 | `AtomUrls`: every Atom `link@href` kept passes `_is_valid_url` |
| Sitemap.HtmlUrlsValid | backend/crawler.py:353-368 | `HtmlUrls`: every anchor an HTML sitemap yields passes `_is_valid_url` |
| Sitemap.UrlsetUrlsCapped | backend/crawler.py:319-327 | `UrlsetUrls`: a urlset yields at most max_pages URLs (one when max_pages < 1, as the check follows the add) |
| Sitemap.HtmlUrlsCapped | backend/crawler.py:353-368 | `HtmlUrls`: an HTML sitemap yields at most max_pages URLs, likewise |
| Sitemap.RssUrlsUncapped | backend/crawler.py:330-336 | `RssUrls`: RSS extraction is uncapped: every item whose link passes is in the result |
| Sitemap.RssUrlsKeeps | backend/crawler.py:330-336 | `RssUrls`: RSS extraction only adds |
| Sitemap.FetchGuards | backend/crawler.py:257-278 | `SitemapUrls`: a failing request or a non-200 status yields nothing; XML is tested before HTML; a body neither XML nor HTML yields nothing |
| Sitemap.DiscoverLoopStops | backend/crawler.py:211-235 | `DiscoverLoop`: discovery merges whole sets and stops once max_pages is reached, so the result may exceed it; below the cap, every candidate was tried |
| Sitemap.DiscoverLoopStopsAtCap | backend/crawler.py:211-235 | `DiscoverLoop`: the loop stops right after the first candidate whose URLs bring the merged set to max_pages; every earlier candidate that yielded URLs left it below; without such a candidate every candidate is tried |
| Sitemap.SitemapDiscovery.constructor | backend/crawler.py:170-176 | the base URL without trailing slashes, the parsed host as domain, no URLs yet, and the 22 candidates |
| Sitemap.SitemapDiscovery.Create | backend/crawler.py:170-176 | a base URL `urlparse` rejects gives its error and no object; otherwise a fresh discovery with the constructor's state |
| Sitemap.SitemapDiscovery.InsertOverride | backend/api.py:608-609 | a sitemap override goes in front of every candidate |
| Sitemap.SitemapDiscovery.CheckRobotsTxt | backend/crawler.py:237-255 | on a 200 robots.txt the declared sitemaps are appended, otherwise the list is unchanged |
| Sitemap.SitemapDiscovery.AppendDeclaredSitemaps | backend/crawler.py:245-252 | the line loop appends exactly what `AppendDeclared` says |
| Sitemap.SitemapDiscovery.FetchAndParseSitemap | backend/crawler.py:257-278 | returns `SitemapUrls` of the URL |
| Sitemap.SitemapDiscovery.ParseXmlSitemap | backend/crawler.py:295-351 | returns `XmlUrls` of the parsed document |
| Sitemap.SitemapDiscovery.ParseIndex | backend/crawler.py:302-316 | the index loop returns `IndexUrls` |
| Sitemap.SitemapDiscovery.IndexEntry | backend/crawler.py:308-316 | one entry of the index loop: the URLs only grow and it stops only at the page cap; stopping, it returns `IndexUrls` over the remaining entries, otherwise the loop goes on to the same `IndexUrls` result |
| Sitemap.SitemapDiscovery.ParseUrlset | backend/crawler.py:319-327 | the urlset loop returns `UrlsetUrls` |
| Sitemap.SitemapDiscovery.ParseRssItems | backend/crawler.py:330-336 | the RSS loop returns `RssUrls` |
| Sitemap.SitemapDiscovery.ParseAtomEntries | backend/crawler.py:338-344 | the Atom loop returns `AtomUrls` |
| Sitemap.SitemapDiscovery.ParseHtmlSitemap | backend/crawler.py:353-372 | the anchor loop returns `HtmlUrls` |
| Sitemap.SitemapDiscovery.DiscoverSitemaps | backend/crawler.py:211-235 | robots.txt declarations first, then the candidate loop; the result is `DiscoverLoop` over the final list |
| Summarizer.SplitSentencesClean | backend/crawler.py:151 | `SplitSentences`: no piece of `re.split(r'[.!?]+', s)` holds a terminator |
| Summarizer.SplitSentencesConcat | backend/crawler.py:151 | `SplitSentences`: the pieces, put back together, are the text without its terminators: the split loses nothing else |
| Summarizer.KeptSentences | backend/crawler.py:152 | the kept sentences are stripped pieces in their order (a subsequence), each longer than 20 characters |
| Summarizer.KeptSentencesCounts | backend/crawler.py:152 | `KeptSentences`: every stripped piece longer than 20 characters is kept exactly as often as it occurs, and no shorter one is kept |
| Summarizer.ScoreAll | backend/crawler.py:158-160 | the i-th of the first ten sentences scores `(10 - i) + words/10`, scaled by ten to stay in integers |
| Summarizer.MaxIndex | backend/crawler.py:162 | the best-scored entry under the tuple order of `sorted(..., reverse=True)` (score, then sentence) |
| Summarizer.TopK | backend/crawler.py:162 | `[:k]` of the descending sort: k entries (or all), drawn from the scored ones |
| Summarizer.TopKBest | backend/crawler.py:162 | no entry left out ranks above one taken |
| Summarizer.SortByIndex | backend/crawler.py:163 | the re-sort by `sentences.index` is a permutation ordered by first occurrence |
| Summarizer.TopThree | backend/crawler.py:157-163 | with more than three sentences, three entries from the first ten, in text order |
| Summarizer.PickedFacts | backend/crawler.py:149-165 | three or fewer sentences are all kept in order; otherwise three of the first ten, in order of first occurrence |
| Summarizer.PickedFromLong | backend/crawler.py:157-165 | from more than three sentences exactly three are picked, among the first ten, in text order |
| Summarizer.PickedAreLong | backend/crawler.py:149-165 | the summary joins at most three sentences, each longer than 20 characters |
| Summarizer.ExtractiveSummary | backend/crawler.py:148-165 | the summary joins with ". " at most three sentences, each a kept sentence of the content |
| Summarizer.SummarizeContent | backend/crawler.py:115-118 | content under 100 stripped characters comes back stripped; longer content gets the extractive summary |
| ApiCache.Remove | backend/api.py:143-144 | the key order without `key`: the other keys in their order, still without repeats, one shorter when `key` was there |
| ApiCache.RemoveAt | backend/api.py:143-144 | popping the key found at position i leaves exactly the keys before it followed by the keys after it |
| ApiCache.KeepLive | backend/api.py:114-125 | exactly the keys whose stamp is at most `ttl` old survive the purge, in their original order |
| ApiCache.Evicted | backend/api.py:127-132 | eviction keeps only keys that were there |
| ApiCache.EvictedIsRecentSuffix | backend/api.py:127-132 | popping the oldest until `max_size` remain keeps the `max_size` most recent keys, in order |
| ApiCache.KeepLiveKeepsLast | backend/api.py:158-164 | a key just stamped is the most recent one left by the purge |
| ApiCache.Restrict | backend/api.py:123-125 | the value and stamp maps follow the surviving keys and keep their entries |
| ApiCache.MemoryCache.constructor | backend/api.py:100-107 | an empty cache with zero hits and misses |
| ApiCache.MemoryCache.CleanupExpired | backend/api.py:114-125 | the purge leaves only live entries, unchanged, and touches no counter |
| ApiCache.MemoryCache.StaleKeys | backend/api.py:116-121 | the collected keys are exactly the cached keys whose stamp is older than the lifetime |
| ApiCache.MemoryCache.PopAll | backend/api.py:123-125 | popping the keys leaves the key order without them and both dictionaries restricted to the keys left; counters unchanged |
| ApiCache.MemoryCache.PopKey | backend/api.py:124-125 | one `pop(key, None)` on both dictionaries: the key leaves the order and both maps, missing or not |
| ApiCache.MemoryCache.EnforceSizeLimit | backend/api.py:127-132 | the oldest entries go until at most `max_size` remain; a negative bound empties the cache and fails |
| ApiCache.MemoryCache.Get | backend/api.py:134-147 | a hit exactly for a present key no older than `ttl`: the value, moved to the recent end, one more hit; otherwise the key is dropped and one more miss |
| ApiCache.MemoryCache.Set | backend/api.py:149-165 | the value stamped now at the recent end, then purge and eviction; all remaining entries are live |
| ApiCache.MemoryCache.Delete | backend/api.py:167-173 | true exactly when the key was present, which is then gone |
| ApiCache.MemoryCache.Clear | backend/api.py:175-180 | returns the former size and leaves the cache empty |
| ApiCache.MemoryCache.GetStats | backend/api.py:182-194 | size and counters as held; hit rate is hits over lookups in percent, 0 with no lookups, always within 0..100 |
| ApiCache.NoDupCard | backend/api.py:188 | `len(self.cache)` counts distinct keys |
| ApiCache.CacheKey | backend/api.py:204-214 | every key starts with "request:" |
| ApiCache.CacheKeyIgnoresPacing | backend/api.py:207-209 | requests differing only in delay and concurrency get the same key |
| ApiCache.Matching | backend/api.py:252-258 | the keys containing the pattern, and only those, in cache order |
| ApiCache.MatchingNoDup | backend/api.py:256-258 | no key is listed twice for deletion |
| ApiCache.CacheManager.constructor | backend/api.py:201-202 | the manager wraps the given cache |
| ApiCache.CacheManager.GetCachedResult | backend/api.py:216-238 | a result exactly when the request's key holds a live entry, and it is that entry; the cache afterwards is what `get` leaves: on a hit the key moves to the recent end and the hit count grows, on a miss the key is dropped and the miss count grows |
| ApiCache.CacheManager.CacheResult | backend/api.py:240-247 | the new key order is the old one with the request's key moved to the recent end, purged of stale stamps and cut to `max_size`; values and stamps are kept exactly for the keys left, the new entry stamped now; counters unchanged |
| ApiCache.StoredEntry | backend/api.py:240-247 | after a `set`, the stored entry survives with its value and stamp when there is room for one and the lifetime is not negative, and every other surviving entry keeps its old value |
| ApiCache.CacheManager.InvalidateCache | backend/api.py:249-271 | with a pattern, exactly the matching keys are deleted and counted, the rest keep their values, stamps and order; without one the cache is cleared and its former size returned |
| ApiCache.CacheManager.DeleteKeys | backend/api.py:262-264 | deleting each listed present key removes exactly those keys, counts every one, and leaves the other entries and their order untouched |
| ApiResults.FilterResponseData | backend/api.py:484-503 | one response per result, in order; content, metadata and links present exactly when requested, the metadata being that result's; url, title, summary, crawl time and errors carried over |
| ApiResults.Hosts | backend/api.py:510-511 | the host of every result's URL, or a failure naming a result whose URL does not parse |
| ApiResults.GroupOrder | backend/api.py:513-516 | each non-base host once and nothing else |
| ApiResults.GroupOrderAppearance | backend/api.py:513-516 | the hosts come in the order of their first appearance among the results, as dictionary insertion keeps them |
| ApiResults.Group | backend/api.py:515-516 | a host's group has as many results as the host has occurrences, taken in result order |
| ApiResults.GroupMembers | backend/api.py:510-516 | a result is in a host's group exactly when its URL parses to that host |
| ApiResults.Ellipsize | backend/api.py:525-526 | text over the bound is cut to it and gets "..."; shorter text is kept |
| ApiResults.Summarize | backend/api.py:518-531 | one host's entry: that host, its page count, no error, a preview of at most 503 and a summary of at most 303 characters |
| ApiResults.SummarizeAll | backend/api.py:518-531 | one entry per host with its page count; preview at most 503 and summary at most 303 characters |
| ApiResults.ExtractSubdomainResults | backend/api.py:505-532 | fails exactly when some result's URL does not parse, as `urlparse` raises |
| ApiResults.SubdomainResultsGroupByHost | backend/api.py:505-532 | every non-base host appears exactly once, never the base domain, with the number of its pages |
| AppBackend.Recent | backend/app.py:129 | exactly the timestamps after the window start survive the prune |
| AppBackend.RecentPruneLater | backend/app.py:125-136 | pruning at an earlier time never drops a timestamp a later window still counts |
| AppBackend.RecentAppend | backend/app.py:129 | the prune distributes over concatenation, so appending `now` and pruning later commute |
| AppBackend.ExpiredKeys | backend/app.py:146 | exactly the keys whose expiry time is before `now` |
| AppBackend.AppState.constructor | backend/app.py:35-37 | empty cache, expiry map and limiter with the configured limit and window |
| AppBackend.AppState.GetCachedResponse | backend/app.py:106-115 | a value exactly while `now` is before the key's expiry; an expired entry is removed from both maps |
| AppBackend.AppState.SetCache | backend/app.py:117-120 | the value stored with expiry `now + ttl` |
| AppBackend.AppState.CheckRateLimit | backend/app.py:123-137 | allowed exactly when fewer than the limit remain in the window; `now` is recorded only when allowed, and no client ever holds more than the limit |
| AppBackend.AppState.CleanupSweep | backend/app.py:140-150 | one cleanup pass removes exactly the expired entries and keeps the rest |
| AppBackend.DedupFromSound | backend/app.py:646-651 | every kept suggestion comes from the list and has a case-folded key not seen before |
| AppBackend.DedupFromDistinct | backend/app.py:646-651 | no two kept suggestions share a case-folded key |
| AppBackend.DedupFromCovers | backend/app.py:646-651 | every suggestion's key is represented in the result |
| AppBackend.MergeSuggestions | backend/app.py:643-652 | the loop computes the merged list; nothing is merged when DeepEval adds no suggestion |
| AppBackend.DedupKeepsDistinctPrefix | backend/app.py:645-651 | an already distinct prefix passes through the dedup unchanged |
| AppBackend.MergedSuggestionsDistinct | backend/app.py:643-652 | the merge is distinct up to case, covers every input suggestion and invents none |
| AppBackend.MergedKeepsOriginalFirst | backend/app.py:645-652 | distinct original suggestions stay first and in order |
| AppBackend.Compare | backend/app.py:926-933 | for non-empty scores, `index(max)` and `index(min)` are the first maximum and first minimum, and the range is non-negative |
| AppBackend.Inverted | backend/app.py:918-920 | bias and toxicity scores become one minus the raw score |
| AppBackend.InvertedBestIsLowestRaw | backend/app.py:918-930 | after inversion the best prompt is the one with the lowest raw bias or toxicity, and the worst the highest |
| AppBackend.InsertReal | backend/app.py:1025 | inserting keeps the scores sorted and is a permutation plus the new score |
| AppBackend.SortReals | backend/app.py:1025 | `sorted(...)` is ordered and a permutation |
| AppBackend.Statistics | backend/app.py:1018-1026 | with successful scores, min and max bound every score and median is the element at index len/2 of the ascending sort; none without scores |
| AppBackend.BatchEvaluate | backend/app.py:948-1030 | empty cases are refused; otherwise one result per case in order, success exactly for a non-empty prompt that evaluates, counts add up, the average is the mean of the successful scores (absent exactly when none succeeded) and lies between their minimum and maximum, and the distribution is that of the successful scores |
| AppBackend.SuccessScoresAppend | backend/app.py:1018-1020 | the successful scores grow by one exactly with a successful case |
| PromptStore.UnknownTechniques | api_1.py:553 | exactly the listed techniques that are not in the catalogue |
| PromptStore.ClashInRow | api_1.py:559-563 | the first partner of technique `i` that its `combinable_with` list lacks, or none |
| PromptStore.FirstClash | api_1.py:558-563 | the first pair, in loop order, whose second technique the first cannot be combined with, or none at all |
| PromptStore.ValidateTechniques | api_1.py:548-565 | an empty list becomes `["chain_of_thought"]`; unknown names are reported all together; otherwise a clashing pair is reported; else the list is returned |
| PromptStore.ValidateTechniquesAccepts | api_1.py:548-565 | a non-empty list passes exactly when every technique is known and each is combinable with every other one |
| PromptStore.RepeatedTechniqueRejected | api_1.py:558-563 | a technique listed twice is refused, since none lists itself as combinable |
| PromptStore.ReactWithChainOfThoughtRejected | api_1.py:89-167 | react and chain_of_thought cannot be combined, in either order, and the message names chain_of_thought first |
| PromptStore.ValidateSafetyLevel | api_1.py:567-572 | accepted exactly for low, medium, high and maximum, unchanged |
| PromptStore.ValidateAiModel | api_1.py:574-578 | accepted exactly for a configured model, unchanged |
| PromptStore.Placeholder | api_1.py:512 | the placeholder is the key wrapped in double braces |
| PromptStore.RenderTemplate | api_1.py:503-517 | no text for an unknown template; otherwise each keyword replaced in turn by its sanitised value |
| PromptStore.SubstituteUntouched | api_1.py:511-515 | `Substitute`: a template mentioning none of the placeholders comes back unchanged |
| PromptStore.DeleteCloseLeavesNoPair | api_1.py:514 | deleting every "}}" leaves no two adjacent closing braces |
| PromptStore.SafeValueHasNoClose | api_1.py:514 | a sanitised value holds no "}}" |
| PromptStore.NoPairNoClose | api_1.py:514 | without adjacent closing braces there is no "}}" |
| PromptStore.SafeValueHasNoPlaceholder | api_1.py:512-514 | a sanitised value can never hold a placeholder, so substitution cannot inject one |
| PromptStore.SafeValueCanKeepOpen | api_1.py:514 | sanitising can still leave "{{": deleting "}}" can join braces into a new "{{" |
| Text.SpaceEnd | api_1.py:1070-1078 | the end of the maximal whitespace run that `\s+` consumes: every character up to it is whitespace and the next is not (shared with the fence pattern of prompt_api/celery_worker.py:43) |
| PromptStore.OnlyWholeRun | api_1.py:1070-1078 | a word after whitespace can only follow the whole run |
| PromptStore.GreedyPhraseMatchesRegex | api_1.py:1070-1081 | the greedy phrase match agrees with `word\s+word` matched case-insensitively anywhere |
| PromptStore.GreedyIsRegex | api_1.py:1070-1081 | every greedy phrase match is a match of the regular expression |
| PromptStore.RegexIsGreedy | api_1.py:1070-1081 | for letter words every match of the regular expression is the greedy one |
| PromptStore.HarmfulPatternsAreLetterWords | api_1.py:1070-1078 | each pattern is lower-case words separated by `\s+` |
| PromptStore.MatchedPatterns | api_1.py:1080-1083 | exactly the patterns found in the prompt, each once |
| PromptStore.InjectionIssues | api_1.py:1081-1082 | one injection issue per matched pattern and no other kind |
| PromptStore.RiskThreshold | api_1.py:1083-1092 | `Risk`: the risk stays under 0.3 exactly when twice the number of hits, plus one for a long prompt, is under three |
| PromptStore.ValidatePromptSafety | api_1.py:1064-1094 | safe exactly when no pattern matches, or one pattern matches and the prompt is not over 10000 characters; risk capped to 0..1; one issue per matched pattern plus one for a prompt over 10000 characters |
| PromptStore.EstimateTokenCount | api_1.py:1059-1062 | the floor of a quarter of the length |
| PromptStore.MinuteOf | api_1.py:767 | the whole minute containing `now` |
| PromptStore.UserPrompts | api_1.py:2227 | exactly the user's sessions, in order |
| PromptStore.Oldest | api_1.py:2229 | the first session with the least creation time, as `min` picks it |
| PromptStore.RemoveFirst | api_1.py:2230 | `list.remove`: the first occurrence goes and nothing else |
| PromptStore.Toggled | api_1.py:1853 | zero stars become one, any other count becomes zero |
| PromptStore.FindEntry | api_1.py:1850-1851 | the first library entry with that id, or none |
| PromptStore.InMemoryStore.constructor | api_1.py:673-721 | empty cache, usage, counters, sessions and evaluations |
| PromptStore.InMemoryStore.SetCache | api_1.py:734-740 | with caching on, the value stored with expiry `now + ttl`; off, nothing changes |
| PromptStore.InMemoryStore.GetCache | api_1.py:742-752 | a value exactly while its expiry is after `now`; an expired entry is deleted; nothing with caching off |
| PromptStore.InMemoryStore.TrackUsage | api_1.py:754-763 | the counter under the key "university:date:endpoint" gains one request and the cost |
| PromptStore.InMemoryStore.CheckRateLimit | api_1.py:765-783 | allowed exactly for a known university under its per-minute limit; the counter under "university:endpoint:minute" is created at zero and grows only then; every counter stays within the limit of the university its key starts with |
| PromptStore.UniversityOfKey | api_1.py:768 | the university is recovered from the counter key built for it, so each counter is checked against its own university's limit |
| PromptStore.InMemoryStore.AddHistoryPrompt | api_1.py:2205-2232 | the new session carries the token estimate and the safety verdict and is appended under the per-user cap |
| PromptStore.InMemoryStore.ToggleStar | api_1.py:1846-1856 | an unknown id is refused; otherwise that entry's stars toggle and `starred` says whether they are now positive |
| PromptStore.SetThenLookup | api_1.py:734-752 | a value just cached is found exactly until its expiry |
| PromptStore.HistoryCapRemovesOldest | api_1.py:2224-2230 | past twenty, exactly one of the user's oldest sessions is removed and the store keeps its size |
| PromptStore.UserPromptsRemoveFirst | api_1.py:2227-2230 | removing a user's session shrinks only that user's history, by one |
| PromptStore.UserPromptsAppend | api_1.py:2224-2227 | appending a session adds it to its own user's history only |
| PromptStore.HistoryCapKept | api_1.py:2224-2230 | a user with at most twenty sessions still has at most twenty, and other users' histories are untouched |
| Retry.AttemptLoop | backend/utils.py:55-70 | calls until the first success, at most `max_retries + 1` times; the last failure is raised; the delays between failures are `initial_delay * backoff_factor^k` |
| BackendUtils.RetryOnFailure | backend/utils.py:21-80 | the decorated call returns exactly when some attempt succeeds, the first success; otherwise the last attempt's error; a negative `max_retries` raises a TypeError from `raise None` |
| MiscUtils.RetryOnFailure | templates/miscellaneous/utils_.py:8-37 | the same loop, but a negative `max_retries` makes no call and returns None |
| BackendUtils.MissingKeys | backend/utils.py:187 | exactly the required keys absent from the response, in required order |
| BackendUtils.ValidateResponseAgainstSchema | backend/utils.py:173-188 | a non-dictionary fails listing every required key; a dictionary is valid exactly when no required key is missing |
| MiscUtils.ValidateResponse | templates/miscellaneous/utils_.py:78-95 | a non-dictionary fails with one message; on a dictionary it agrees with the backend's check |
| BackendUtils.CollapseSpaces | backend/utils.py:203 | every whitespace run becomes one space: no other whitespace and no two spaces in a row remain |
| Text.IndexFrom | backend/utils.py:207 | `str.find` of one character from a start: the first position at or after it holding the character, or none when no later position does (shared by `urlparse` and prompt_api/celery_worker.py:48) |
| BackendUtils.FindFrom | backend/utils.py:207 | the first case-insensitive occurrence from `i`, or none |
| BackendUtils.ScriptEnd | backend/utils.py:207 | the end of a `<script ...>...</script>` match lies after its start |
| BackendUtils.RemoveScripts | backend/utils.py:213-214 | removing script blocks never lengthens the text |
| BackendUtils.RemoveCaseInsensitive | backend/utils.py:213-214 | removing a literal pattern, in any case, never lengthens the text |
| BackendUtils.RemoveAbsentUnchanged | backend/utils.py:213-214 | text holding no occurrence of a pattern, in any case, passes its removal unchanged |
| BackendUtils.Cleaned | backend/utils.py:202-214 | the cleaned text is no longer than the input |
| BackendUtils.SanitizePromptInput | backend/utils.py:190-223 | the cleaned text if within the limit, else its first `max_length` characters (Python slice semantics) followed by "..." |
| BackendUtils.PickKeys | backend/utils.py:241-253 | a field is formatted exactly when the example has it |
| BackendUtils.FormattedKeys | backend/utils.py:241-253 | the formatted example has exactly the signature fields the example provides |
| BackendUtils.FormatAllShape | backend/utils.py:238-265 | at most one output per example, each holding exactly all signature fields |
| BackendUtils.PickFields | backend/utils.py:241-253 | the field loops compute the picked map |
| BackendUtils.FormatDspyExamples | backend/utils.py:225-267 | the loop keeps, in order, the dictionaries with every signature field, formatted |
| BackendUtils.Jaccard | backend/utils.py:1458-1461 | intersection over union lies in 0..1 |
| BackendUtils.TextSimilarity | backend/utils.py:1437-1461 | the word-overlap similarity lies in 0..1 |
| BackendUtils.SubsetCard | backend/utils.py:1458-1461 | the intersection is no larger than the union |
| BackendUtils.EmptyTextNoWords | backend/utils.py:1448-1452 | empty text has no words |
| BackendUtils.SimilarityProperties | backend/utils.py:1437-1461 | symmetric; 1 for the same non-empty word sets; 0 for disjoint ones |
| BackendUtils.FieldIssuesNone | backend/utils.py:1486-1500 | no field issue exactly when every required field is present and truthy |
| BackendUtils.ExampleIssuesNone | backend/utils.py:1480-1500 | an example has no issue exactly when it is a dictionary with every required field present and truthy |
| BackendUtils.EveryExampleAccountedFor | backend/utils.py:1479-1508 | every example is either counted valid or listed with its own non-empty issues |
| BackendUtils.RatioBounds | backend/utils.py:1513-1516 | a count over a larger total is a rate in 0..1 |
| BackendUtils.ValidateDspyTrainingData | backend/utils.py:1463-1522 | totals, valid count and issue list agree; valid exactly when there is no issue; the rate is valid over total, 0 for no examples |
| BackendUtils.QualityGrade | backend/utils.py:1183-1194 | A to F by the thresholds 0.9, 0.8, 0.7 and 0.6 |
| BackendUtils.QualityGradeMonotone | backend/utils.py:1183-1194 | a higher score never gets a worse grade |
| BackendUtils.Successes | backend/utils.py:1302-1303 | the successes of a type never exceed its count |
| BackendUtils.TypeSetStep | backend/utils.py:1297-1299 | a record adds its type to the known types |
| BackendUtils.Types | backend/utils.py:1296-1312 | each operation type once |
| BackendUtils.SumCountsStep | backend/utils.py:1296-1304 | one record raises the total count by one exactly when its type is listed |
| BackendUtils.SumCountsAppend | backend/utils.py:1296-1304 | adding a type adds its count |
| BackendUtils.CountAbsent | backend/utils.py:1296-1304 | an unseen type has no count and no time |
| BackendUtils.TotalsSumToHistory | backend/utils.py:1296-1312 | the per-type counts add up to the number of records |
| BackendUtils.StatsOfStep | backend/utils.py:1296-1304 | one iteration of the statistics loop |
| BackendUtils.StatsOfPrefix | backend/utils.py:1296-1304 | the statistics of one more record are those of the records before it with that record counted |
| BackendUtils.StatsOfPositive | backend/utils.py:1296-1304 | a seen type has a positive count |
| BackendUtils.Summarize | backend/utils.py:1306-1312 | success rate and mean time are ratios over the count, 0 for none; the rate lies in 0..1 |
| BackendUtils.SummaryOfCounts | backend/utils.py:1288-1312 | each summarised type was seen, with its count, success ratio in 0..1 and mean time |
| BackendUtils.MetricsCollector.constructor | backend/utils.py:1201-1204 | an empty history |
| BackendUtils.MetricsCollector.RecordOperation | backend/utils.py:1206-1223 | the record is appended and only the 1000 most recent are kept, the new one last |
| BackendUtils.MetricsCollector.OperationStatistics | backend/utils.py:1288-1312 | nothing without records; otherwise the loop computes the per-type summary |
| TemplateAnalytics.EmptyScores | backend/prompt_templates.py:807-814 | a new usage record starts with an empty history for exactly the six metrics |
| TemplateAnalytics.AppendCapped | backend/prompt_templates.py:686-696 | the score is appended last; the history stays at most 100 long |
| TemplateAnalytics.CappedHistoryIsRecent | backend/prompt_templates.py:686-696 | appending to a capped history keeps exactly the 100 most recent scores ever recorded |
| TemplateAnalytics.Fraction | backend/prompt_templates.py:820-838 | a count of successes over uses lies in 0..1 |
| TemplateAnalytics.RateIsFraction | backend/prompt_templates.py:820-838 | `UpdatedRate`: the moving-average update keeps the success rate equal to successes over uses, whatever the starting 1.0 |
| TemplateAnalytics.SummarizeMetric | backend/prompt_templates.py:718-728 | count, latest and mean of the scores; best and worst are scores, with lower better for bias and toxicity |
| TemplateAnalytics.RecommendationFor | backend/prompt_templates.py:733-740 | a recommendation carries the metric's average; bias or toxicity only above its threshold, a quality metric exactly when under 0.7, the overall score never |
| TemplateAnalytics.SummaryOf | backend/prompt_templates.py:698-742 | exactly the metrics with scores are summarised, each with its count and trend; at most one recommendation per metric |
| TemplateAnalytics.TotalWeightAppend | backend/prompt_templates.py:1024-1062 | reason weights add up over concatenation |
| TemplateAnalytics.LowScores | backend/prompt_templates.py:1052-1055 | only low-score reasons, for listed metrics |
| TemplateAnalytics.DecliningTrends | backend/prompt_templates.py:1058-1061 | only declining-trend reasons, at most one per metric |
| TemplateAnalytics.UniformWeight | backend/prompt_templates.py:1052-1061 | reasons of one weight add up to that weight times their number |
| TemplateAnalytics.WeightOfParts | backend/prompt_templates.py:1024-1061 | the score of all reasons is the sum over the seven checks |
| TemplateAnalytics.FlagWeight | backend/prompt_templates.py:1027-1049 | a check adds its weight exactly when it fires |
| TemplateAnalytics.ScoreIsWeightOfReasons | backend/prompt_templates.py:1020-1061 | `Assess`: the optimisation score is exactly the total weight of the reasons given |
| TemplateAnalytics.PriorityOf | backend/prompt_templates.py:1064 | high from 6, medium from 4, low below |
| TemplateAnalytics.RecommendedType | backend/prompt_templates.py:1082-1091 | safety exactly when some reason mentions bias or toxicity; then success rate, then usage; else general |
| TemplateAnalytics.CandidateList | backend/prompt_templates.py:1021-1073 | at most one candidate per template |
| TemplateAnalytics.CandidateListMembers | backend/prompt_templates.py:1021-1073 | `CandidateOf`: the candidates are exactly the templates that qualify |
| TemplateAnalytics.SortKeepsMembers | backend/prompt_templates.py:1076 | `RankCandidates`: the sort neither adds nor drops a candidate |
| TemplateAnalytics.RankedByScore | backend/prompt_templates.py:1076 | `RankCandidates`: the sort on (score, priority is high), descending, orders by score |
| TemplateAnalytics.RankedCandidates | backend/prompt_templates.py:1013-1077 | `RankCandidates`: exactly the templates scoring at least 3, each with its priority, highest score first |
| TemplateAnalytics.SafetyTakesPrecedence | backend/prompt_templates.py:1084-1085 | high bias or toxicity always recommends the safety optimisation |
| TemplateTables.VersionKey | backend/prompt_templates.py:548-563 | the context's own version when saved, else "general" when saved, else none |
| TemplateTables.UsableText | backend/prompt_templates.py:498-506 | a version's text counts only when non-empty |
| TemplateTables.Bumped | backend/prompt_templates.py:551-561 | a lookup raises the found version's use count and stamps it, touching nothing else |
| TemplateTables.DeepevalAfterLookup | backend/prompt_templates.py:548-561 | the DeepEval lookup raises the found version's use count and stamps it now; with no version found nothing changes; no other entry changes |
| TemplateTables.DspyAfterLookup | backend/prompt_templates.py:498-506 | the DSPy table is consulted only when the DeepEval one gives no usable text |
| TemplateTables.Saved | backend/prompt_templates.py:621-639 | the version is stored fresh, unused, under the template and key; other versions are kept |
| TemplateTables.Unused | backend/prompt_templates.py:801-815 | a new usage record: no uses, rate 1.0, never used |
| TemplateTables.ScoreKeepsUsageValid | backend/prompt_templates.py:677-696 | recording a score keeps a usage record consistent |
| TemplateTables.AddingKeepsOrder | backend/prompt_templates.py:801-815 | adding a record keeps the dictionary order valid |
| TemplateTables.LoadedTableValid | backend/prompt_templates.py:22-55 | the table built from the loaded templates is valid |
| TemplateTables.ScoreKeepsTableValid | backend/prompt_templates.py:677-696 | recording a score keeps the usage table valid |
| TemplateTables.Initialized | backend/prompt_templates.py:943-949 | a template gets a fresh record only when it has none |
| TemplateTables.InitializingKeepsValid | backend/prompt_templates.py:943-949 | initialising keeps the usage table valid |
| TemplateTables.Tracked | backend/prompt_templates.py:799-818 | one more use, stamped now, on a new or existing record |
| TemplateTables.TrackingLeavesPending | backend/prompt_templates.py:799-818 | after counting a use the table waits for exactly that render's outcome |
| TemplateTables.Recorded | backend/prompt_templates.py:820-838 | the outcome updates only the rate of that template |
| TemplateTables.RecordingRestoresValid | backend/prompt_templates.py:820-838 | recording the outcome makes the rate again successes over uses |
| TemplateTables.RenderKeepsValid | backend/prompt_templates.py:515-531 | a render (count then outcome) keeps the usage table valid |
| TemplateTables.RenderCountsOnce | backend/prompt_templates.py:515-531 | a render counts exactly one use of its template and changes no other record |
| TemplateTables.FactsOf | backend/prompt_templates.py:1021-1034 | the facts the candidate scoring reads come from the template's usage and optimisation tables |
| TemplateTables.FactsList | backend/prompt_templates.py:1021 | one set of facts per template, in dictionary order |
| BackendTemplates.ContextSignatureOnlyNames | backend/prompt_templates.py:600-605 | the context hash depends on the set of keyword names only, not their values or order |
| BackendTemplates.Resolve | backend/prompt_templates.py:498-509 | DeepEval version first, then DSPy, then the base template; an empty optimised text is skipped |
| BackendTemplates.SavedVersionIsServed | backend/prompt_templates.py:487-626 | a non-empty version saved for a context is what a render with the same argument names uses |
| BackendTemplates.TrendOf | backend/prompt_templates.py:744-757 | insufficient data exactly below three scores |
| BackendTemplates.ConstantScoresAreStable | backend/prompt_templates.py:744-757 | constant scores are stable |
| BackendTemplates.TemplateManager.constructor | backend/prompt_templates.py:22-55 | the loaded templates, each with a fresh usage record; no optimised versions |
| BackendTemplates.TemplateManager.SaveTemplate | backend/prompt_templates.py:920-960 | on a successful write the template is stored and gets a usage record if it had none; on failure nothing changes |
| BackendTemplates.TemplateManager.RenderTemplate | backend/prompt_templates.py:487-531 | the lookups bump use counts; without any text nothing is counted; otherwise the chosen text is formatted and exactly one use and its outcome are recorded |
| BackendTemplates.TemplateManager.LookupVersion | backend/prompt_templates.py:498-509 | the resolution and the use counts of the version it finds |
| BackendTemplates.TemplateManager.CountRender | backend/prompt_templates.py:515-531 | one use and its outcome recorded |
| BackendTemplates.TemplateManager.SaveDeepevalOptimized | backend/prompt_templates.py:607-642 | the DeepEval version stored under the context key |
| BackendTemplates.TemplateManager.SaveDspyOptimized | backend/prompt_templates.py:644-675 | the DSPy version stored under the context key |
| BackendTemplates.TemplateManager.RecordDeepevalScore | backend/prompt_templates.py:677-696 | the score is appended to a tracked metric's capped history; otherwise nothing changes |
| BackendTemplates.TemplateManager.DeepevalSummaryOf | backend/prompt_templates.py:698-742 | "Template not found" exactly for an untracked template; otherwise its metric summary |
| BackendTemplates.TemplateManager.SuggestOptimizationCandidates | backend/prompt_templates.py:1013-1080 | the ranked candidates over the tracked templates in dictionary order |
| ContextTemplates.CanonicalSorted | prompt_templates.py:529-530 | the signature features are sorted |
| ContextTemplates.SignatureTextIs | prompt_templates.py:515-531 | the signature text is the template name and the sorted features, joined by ":" |
| ContextTemplates.Select | prompt_templates.py:497-513 | DeepEval version first, then DSPy, then a non-empty base template |
| ContextTemplates.SelectAgreesWithBackend | prompt_templates.py:497-513 | the selection is the backend's resolution, except that an empty base template yields nothing |
| ContextTemplates.WithDefaults | prompt_templates.py:533-554 | the eight optional variables default to "", given ones are kept |
| ContextTemplates.EnhancedKwargs | prompt_templates.py:533-554 | the loop adds exactly the missing defaults |
| ContextTemplates.ContextCounted | prompt_templates.py:609-627 | the template's count for the signature grows by one, other counts are kept |
| ContextTemplates.PatternCounted | prompt_templates.py:609-627 | the global pattern count grows by one and records the template |
| ContextTemplates.TrackingKeepsAgreement | prompt_templates.py:609-627 | global pattern counts stay the sums of the per-template counts |
| ContextTemplates.InitializingKeepsAgreement | prompt_templates.py:65-83 | a new template with no contexts keeps the counts in agreement |
| ContextTemplates.MostCommonFaithful | prompt_templates.py:822-830 | every reported pattern carries its own count and templates |
| ContextTemplates.MostCommonOmitted | prompt_templates.py:822-830 | a pattern left out is counted no more than any reported one |
| ContextTemplates.MostCommonIsTop | prompt_templates.py:810-835 | the ten most frequent patterns (or all), most frequent first |
| ContextTemplates.OlderWindow | prompt_templates.py:766-770 | the five scores before the last five, or all before them |
| ContextTemplates.ScoreTrend | prompt_templates.py:760-779 | insufficient data exactly below six scores |
| ContextTemplates.ConstantScoresAreStable | prompt_templates.py:760-779 | constant scores are stable |
| ContextTemplates.RisingScoresImprove | prompt_templates.py:760-779 | recent scores above the older ones by more than 0.05 are improving |
| ContextTemplates.FallingScoresDecline | prompt_templates.py:760-779 | recent scores below the older ones by more than 0.05 are declining |
| ContextTemplates.SavedUnder | prompt_templates.py:651-701 | the version is stored under the key; when the signature raises only the empty entry is created |
| ContextTemplates.ContextTemplateManager.constructor | prompt_templates.py:20-83 | the loaded templates and saved versions, each template with a fresh record and no contexts |
| ContextTemplates.ContextTemplateManager.SaveTemplate | prompt_templates.py:901-919 | on a successful write the template is stored and initialised if new; on failure nothing changes |
| ContextTemplates.ContextTemplateManager.RenderTemplate | prompt_templates.py:469-495 | a raising signature changes nothing; otherwise the lookups bump use counts, and a chosen text is formatted with the defaults while one use, its outcome and its context pattern are recorded |
| ContextTemplates.ContextTemplateManager.LookupVersion | prompt_templates.py:497-607 | the selection and the use counts of the version it finds |
| ContextTemplates.ContextTemplateManager.TrackUsage | prompt_templates.py:609-627 | one more use, the template's context count and the global pattern count |
| ContextTemplates.ContextTemplateManager.TrackTemplate | prompt_templates.py:609-622 | the per-template part of the tracking |
| ContextTemplates.ContextTemplateManager.TrackPattern | prompt_templates.py:623-627 | the global pattern part of the tracking |
| ContextTemplates.ContextTemplateManager.RecordOutcome | prompt_templates.py:629-649 | the outcome updates the template's success rate |
| ContextTemplates.ContextTemplateManager.SaveDeepevalOptimized | prompt_templates.py:651-676 | the DeepEval version stored under the context key; raises exactly when the signature does |
| ContextTemplates.ContextTemplateManager.SaveDspyOptimized | prompt_templates.py:678-701 | the DSPy version stored under the context key; raises exactly when the signature does |
| ContextTemplates.ContextTemplateManager.RecordDeepevalScore | prompt_templates.py:703-717 | the score is appended to a tracked metric's capped history; otherwise nothing changes |
| ContextTemplates.ContextTemplateManager.DeepevalSummaryOf | prompt_templates.py:719-758 | "Template not found" exactly for an untracked template; otherwise its metric summary |
| ContextTemplates.ContextTemplateManager.AnalyzeContextPatterns | prompt_templates.py:810-835 | the number of patterns and the ten most common |
| ContextTemplates.ContextTemplateManager.SuggestOptimizationCandidates | prompt_templates.py:1007-1069 | the ranked candidates over the tracked templates in dictionary order |
| Performance.Percent | templates/miscellaneous/performance_utils.py:80-82 | a percentage of a whole: 0 for an empty whole, 100 exactly when every part counts |
| Performance.CacheStats.constructor | templates/miscellaneous/performance_utils.py:25-27 | all three counters start at zero |
| Performance.CacheStats.Get | templates/miscellaneous/performance_utils.py:29-42 | a stored value is a hit and is decoded (a decoding failure counts as an error and yields the default); a nil reply is a miss; a failing client is an error; the default is returned on every non-hit |
| Performance.CacheStats.Stats | templates/miscellaneous/performance_utils.py:80-89 | the counters, hits plus misses as the total, and the hit rate as a percentage of it |
| Performance.Failures | templates/miscellaneous/performance_utils.py:297-298 | at most one failure per request |
| Performance.SlowOnes | templates/miscellaneous/performance_utils.py:300-301 | at most one slow request per request |
| Performance.StatsOf | templates/miscellaneous/performance_utils.py:304-317 | an endpoint's entry counts at least one request and no more errors than requests |
| Performance.Average | templates/miscellaneous/performance_utils.py:314 | the mean: times the count it gives the total; 0 for no requests |
| Performance.Reported | templates/miscellaneous/performance_utils.py:304-314 | the entry with `avg_time`, which times the count gives the total time |
| Performance.EndpointRecorded | templates/miscellaneous/performance_utils.py:304-317 | the endpoint is added if new; every other endpoint's entry is kept |
| Performance.RecordedEntry | templates/miscellaneous/performance_utils.py:303-317 | the recorded endpoint's entry counts the request once more: one more use, its time added, one more error exactly when it failed |
| Performance.EndpointsFollowLog | templates/miscellaneous/performance_utils.py:303-317 | the endpoint table holds exactly the endpoints the log mentions, each with its counts over its own requests |
| Performance.RecordingKeepsCounters | templates/miscellaneous/performance_utils.py:291-317 | after a request every counter is still the count or sum over the log its name promises |
| Performance.ReportedAll | templates/miscellaneous/performance_utils.py:336 | the reported endpoints are the tracked ones, each with its counts and average |
| Performance.ReportsFollowLog | templates/miscellaneous/performance_utils.py:319-337 | the reported endpoints are those the log mentions, each with its request count, failures and summed time |
| Performance.RecordingMovesTotals | templates/miscellaneous/performance_utils.py:291-301 | one more request, its time added, one more failure or slow request exactly when it is one |
| Performance.PerformanceMonitor.constructor | templates/miscellaneous/performance_utils.py:280-289 | no requests recorded |
| Performance.PerformanceMonitor.RecordRequest | templates/miscellaneous/performance_utils.py:291-317 | the counters move by one request and the totals stay the sums over the request log |
| Performance.PerformanceMonitor.Metrics | templates/miscellaneous/performance_utils.py:319-337 | the request count, the average time and the error rate in percent over the log (0 without requests), and the endpoint table with averages |
| Performance.PerformanceMonitor.ResetMetrics | templates/miscellaneous/performance_utils.py:339-347 | every counter back to zero and no endpoints |
| Performance.Oldest | templates/miscellaneous/performance_utils.py:195 | the minimum timestamp |
| Performance.ShouldProcessBatch | templates/miscellaneous/performance_utils.py:190-196 | due exactly when some pending request has waited the timeout; never with nothing pending |
| Performance.KwargParts | templates/miscellaneous/performance_utils.py:435-436 | one "name:value" part per keyword argument |
| Performance.ValueOfFinds | templates/miscellaneous/performance_utils.py:435-436 | with distinct names, the value looked up for a name is the one passed |
| Performance.SameElementsPermutation | templates/miscellaneous/performance_utils.py:435 | two duplicate-free lists with the same elements are permutations of each other |
| Performance.SameNames | templates/miscellaneous/performance_utils.py:435 | the same keyword arguments give the same names |
| Performance.CacheKeyOrderFree | templates/miscellaneous/performance_utils.py:425-438 | `CacheKey`: the cache key does not depend on the order the keyword arguments were passed in |
| Performance.KwargPartsSorted | templates/miscellaneous/performance_utils.py:435-436 | the keyword parts are the passed arguments, ordered by name |
| Performance.NoDupCount | templates/miscellaneous/performance_utils.py:435 | a duplicate-free list holds each element at most once |
| BackendConfig.SettingsOf | backend/config.py:5-104 | the base class reads the environment; production fixes 7200, 1000 and no debugging; development 300, 10 and debugging |
| BackendConfig.Validate | backend/config.py:54-73 | each message appears exactly when its rule is broken; no message exactly when every rule holds |
| BackendConfig.VariantsOnlyCheckEnvironment | backend/config.py:54-104 | the variants fail validation only on the API key, the base URL or the port |
| BackendConfig.IsProduction | backend/config.py:76-79 | production needs debugging off and ENVIRONMENT set |
| BackendConfig.GetConfig | backend/config.py:108-115 | always one of the two variants |
| BackendConfig.ChosenConfigKnowsItsMode | backend/config.py:76-115 | the chosen configuration reports production exactly when ENVIRONMENT, lower-cased, says production |
| SecureApi.SanitizeInput | templates/miscellaneous/api_2.py:387-406 | too long before stripping, then dangerous after lower-casing, else the stripped text |
| SecureApi.ContainsInSlice | templates/miscellaneous/api_2.py:396-404 | a pattern found in a piece of the text is found in the text |
| SecureApi.StrippedStaysClean | templates/miscellaneous/api_2.py:396-406 | stripping cannot create a dangerous pattern |
| SecureApi.SliceStaysClean | templates/miscellaneous/api_2.py:396-406 | a piece of a clean text is clean |
| SecureApi.SanitizedIsClean | templates/miscellaneous/api_2.py:387-406 | the sanitised text is clean and passes sanitising again unchanged |
| SecureApi.Unset | templates/miscellaneous/api_2.py:122 | exactly the names of the unset variables |
| SecureApi.ValidateConfig | templates/miscellaneous/api_2.py:114-132 | accepted exactly when every required variable is set and every sentinel parses; missing names are reported first, in order |
| PromptLibrary.Reviewed | src/main.py:447-449 | the new status, the admin notes and the review time; nothing else changes |
| PromptLibrary.Toggled | src/main.py:658-678 | the user's star on the prompt flips; every other star is kept |
| PromptLibrary.ToggleTwice | src/main.py:658-678 | toggling twice restores the stars |
| PromptLibrary.RequireAdmin | src/main.py:90-106 | allowed exactly with the admin key and an admin user; the key is checked first |
| PromptLibrary.Entries | src/main.py:620-633 | one entry per published prompt |
| PromptLibrary.ListingOrdered | src/main.py:615-636 | every prompt once, with its own star count, most starred first, ties newest first |
| PromptLibrary.Library.constructor | src/main.py:550-580 | an empty library |
| PromptLibrary.Library.Submit | src/main.py:550-584 | refused without a user or with the same text pending; otherwise a new pending submission under a fresh id |
| PromptLibrary.Library.Review | src/main.py:429-461 | missing, already reviewed, unknown action refused in that order; otherwise marked, and approval publishes exactly one prompt |
| PromptLibrary.Library.ToggleStar | src/main.py:652-678 | an unknown prompt is refused; otherwise the star flips and the reply says which way |
| CeleryWorker.FirstClose | prompt_api/celery_worker.py:43 | the first `}` followed by whitespace and a closing fence |
| CeleryWorker.FirstFence | prompt_api/celery_worker.py:43 | the first position where the fenced pattern matches |
| CeleryWorker.LastIndex | prompt_api/celery_worker.py:48 | the last occurrence of a character |
| CeleryWorker.ExtractJson | prompt_api/celery_worker.py:38-54 | the input itself or a braced piece of it |
| CeleryWorker.SpaceEndAt | prompt_api/celery_worker.py:43 | the whitespace run ends at the first non-space |
| CeleryWorker.ClosesAtIff | prompt_api/celery_worker.py:43 | a lazy close matches exactly with the whitespace run after it |
| CeleryWorker.FenceAtSound | prompt_api/celery_worker.py:43 | the match found at a position is the one with the earliest close |
| CeleryWorker.FoundIsMatch | prompt_api/celery_worker.py:43 | what the fenced search finds at a position satisfies the pattern there |
| CeleryWorker.MatchNoEarlier | prompt_api/celery_worker.py:43 | any match at that position opens at the same brace and closes no earlier than the lazy `.*?` |
| CeleryWorker.FenceAtComplete | prompt_api/celery_worker.py:43 | every match at a position is found |
| CeleryWorker.ExtractFenced | prompt_api/celery_worker.py:43-45 | with a fenced object, the leftmost shortest group is returned |
| CeleryWorker.FirstFenceIsLeftmost | prompt_api/celery_worker.py:43 | the search finds the leftmost match |
| CeleryWorker.NoFence | prompt_api/celery_worker.py:43-45 | without a fenced object the fenced search fails |
| CeleryWorker.ExtractBraces | prompt_api/celery_worker.py:47-50 | without a fence, the span from the first `{` to the last `}` is returned, the widest such span |
| CeleryWorker.ExtractUnchanged | prompt_api/celery_worker.py:52 | with neither, the input is returned unchanged |
| CeleryWorker.SliceShift | prompt_api/celery_worker.py:38-54 | slices of a piece are slices of the whole |
| CeleryWorker.ShiftClosed | prompt_api/celery_worker.py:43 | a close in a piece is a close in the whole |
| CeleryWorker.ShiftFence | prompt_api/celery_worker.py:43 | a fence in a piece is a fence in the whole |
| CeleryWorker.PieceHasNoFence | prompt_api/celery_worker.py:43-50 | a piece of a fence-free text is fence-free |
| CeleryWorker.GroupHasNoFence | prompt_api/celery_worker.py:43-45 | the extracted group holds no fenced object |
| CeleryWorker.NoneMeansNoFence | prompt_api/celery_worker.py:43-45 | when the search finds no fence, the text holds no fenced object anywhere |
| CeleryWorker.NoCloseNoFence | prompt_api/celery_worker.py:43-45 | a stretch with no closing fence inside it holds no fenced object |
| CeleryWorker.BracedIsKept | prompt_api/celery_worker.py:47-50 | a braced text without a fence is kept whole |
| CeleryWorker.ExtractIdempotent | prompt_api/celery_worker.py:38-54 | extracting twice gives what extracting once gives |
| Text.IntToString | prompt_api/celery_worker.py:322 | `str()` of an integer: a sign and digits |
| Text.Strip | backend/crawler.py:118-119 | `str.strip()`: no longer than the input, with no whitespace at either end |
| Text.StripIsSlice | backend/crawler.py:118-119 | the stripped text is a contiguous piece of the input |
| Text.StripIdempotent | backend/crawler.py:152 | stripping a stripped piece changes nothing |
| Text.SplitOn | backend/crawler.py:246 | `split('\n')`: at least one piece, none holding the separator |
| Sorting.SortDesc | backend/crawler.py:162 | `sorted(..., reverse=True)` by a key: same length, descending by key, a permutation of the input |
| Sorting.SortDescStable | backend/crawler.py:162 | the sort is stable: entries with equal keys keep their input order |
| Sorting.SortStrings | templates/miscellaneous/performance_utils.py:435 | `sorted` on strings: same length, ascending, a permutation of the input |
| Sorting.SortStringsOrderFree | templates/miscellaneous/performance_utils.py:435 | lists with the same elements sort to the same list |
| Numbers.FirstMaxIndex | backend/app.py:929 | `scores.index(max(scores))`: the first position holding the largest score |
| Numbers.FirstMinIndex | backend/app.py:930 | `scores.index(min(scores))`: the first position holding the smallest score |
| Numbers.MeanBounds | backend/prompt_templates.py:725 | an average lies between any bounds of its entries |
| CeleryWorker.NatToStringOne | prompt_api/celery_worker.py:322 | only 1 prints as "1" |
| CeleryWorker.LowerNoCapitals | prompt_api/celery_worker.py:322 | lower-casing leaves signs and digits alone |
| CeleryWorker.ProfessionalGradeMeaning | prompt_api/celery_worker.py:321-322 | missing or None is false; a bool is itself; an int is true exactly at 1; a string is true when it lower-cases to "true" or is "1" |

## Left out

- Network, Redis, database and language-model I/O: these are oracle inputs or parameters. The Celery dispatch and the task bodies of `prompt_api/celery_worker.py` are not modelled beyond the two pure pieces.
- Concurrency: `asyncio.gather` and the semaphore run each batch one URL after another. The per-host `asyncio.sleep` pacing advances the clock parameter instead of sleeping. `RequestThrottler`, `BatchProcessor.add_request`/`_process_batch`, the infinite `cache_cleanup_task` loop (only one sweep is modelled) and `MemoryCache`'s lock are not modelled.
- `psutil` sampling: memory readings are a parameter. Only the fail-open rule and the limit test are kept.
- `urljoin`: anchors arrive already resolved against the page URL. ElementTree, BeautifulSoup, trafilatura and the `<title>` lookup are part of the oracle's response.
- The transformers summariser is not modelled. Only the extractive fallback path of `ContentSummarizer` is.
- `_cleanup_memory` (garbage collection and a sleep) and `_save_results` (file output) are not modelled.
- Urls.Parse: the check `urlsplit` makes on a non-ASCII netloc (`_checknetloc`: NFKC normalisation must not introduce '/', '?', '#', '@' or ':') is not modelled, because the model has no Unicode normalisation; such a netloc parses here where Python raises.
- Sitemap.SitemapUrls: the recursion through sitemap indexes carries a depth bound standing for Python's recursion limit. Past it the result is empty, as the swallowed RecursionError makes it in the source.
- Crawler.Dedup: `list(set(links))` at backend/crawler.py:689 has no defined order in Python; the model fixes first-occurrence order, so what it states about link order holds for that order only. Which links are kept, each once, does not depend on the order.
- Crawler.EnhancedWebCrawler.AppendMembers: `list(self.sitemap_urls)[:max_pages]` at backend/crawler.py:482 takes URLs in Python's set order; the model picks any distinct members, so its contract holds for every order.
- Crawler.EnhancedWebCrawler.constructor: requires a base URL that `urlparse` accepts; the raising case is modelled by Crawler.EnhancedWebCrawler.Create.
- Sitemap.SitemapDiscovery.constructor: requires a base URL that `urlparse` accepts; the raising case is modelled by Sitemap.SitemapDiscovery.Create.
- md5 is an opaque function parameter, and so are `json.loads` and `str.format` (None where Python raises). The zlib/pickle round trip of large cached values is taken to be the identity.
- `round(x, 2)` and `round(x, 3)` in reported statistics are not modelled: the reports carry the exact ratios.
- Performance.PerformanceMonitor.RecordRequest: an `endpoint_stats` entry keeps only the count, the total time and the errors. `avg_time` is derived when `get_metrics` reads the entry (`Performance.Reported`). Every update sets it to total over count, so the reported value is the same.
- Lower-casing covers ASCII only. `int()` accepts only ASCII digits in the sentinel port check.
- Redis `set`, `delete` and `invalidate_pattern` in templates/miscellaneous/performance_utils.py are not modelled. Only the `get` statistics are. An exception in the cache invalidation of backend/api.py returns 0 or None, which is not modelled.
- Disk load and save in both template managers: the constructors take the templates and versions already read, and saving is a boolean outcome parameter. The default template texts and the creation of the templates directory are not modelled.
- Metadata fields that nothing reads back are dropped: creation times, notes, metrics dictionaries and version strings of saved optimisations, and timestamps of score entries.
- PromptLibrary.Library.Review: the mock `reviewed_by` uuid is not recorded.
- PromptLibrary.Entries: the source marks a prompt starred by comparing the text of each stored star's uuid with the `user_id` query string (src/main.py:631), so a viewer id spelled differently (upper case, no hyphens) is not recognised; the model compares parsed ids.
- PromptLibrary.Library.ToggleStar: a `user_id` that is not a valid uuid makes the source raise. The model takes user ids as already parsed.
- CeleryWorker.ProfessionalGradeMeaning: values other than None, booleans, integers and strings are given by their `str()` text.
- CeleryWorker.ExtractFenced: stated for a given leftmost, lazily closed fence match; its companion lemmas NoFence, ExtractBraces and ExtractUnchanged cover the other cases.
- backend/config.py: a variable that does not parse as an integer stops the import; the model takes the integers already parsed.
- Cost estimation, complexity and readability scores, and the `optimize_prompt_for_model` token rule are outside the modelled core.
- The regex-based `extract_json_from_text` helpers of backend/utils.py, api_1.py and templates/miscellaneous/utils_.py are outside the modelled core.
