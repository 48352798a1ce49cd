/**
 * Sitemap discovery (`SitemapDiscovery` in backend/crawler.py): the fixed
 * list of candidate locations, sitemaps declared in robots.txt, content
 * sniffing, and the sitemapindex / urlset / RSS / Atom / HTML parsers.
 *
 * The network is an oracle: a map from URL to the response a GET would
 * receive; a URL missing from the map stands for a request that raises.
 * What the foreign parsers make of a body (ElementTree's tree or its
 * ParseError, BeautifulSoup's anchors after `urljoin` against the requested
 * URL, trafilatura's extraction, the `<title>` text) is part of the response.
 */
module Sitemap {
  import opened Wrappers
  import opened Text
  import opened Urls

  /** An ElementTree element: a tag ("{namespace}local" when namespaced), text, attributes, children. */
  datatype XmlNode = Element(tag: string, text: Option<string>, attrs: map<string, string>, children: seq<XmlNode>)

  datatype Response = Response(
    status: int,
    contentType: string,          // the content-type header, "" when absent
    body: string,
    xml: Option<XmlNode>,         // None: ET.fromstring raises ParseError
    anchors: seq<string>,         // every <a href>, resolved against the requested URL
    extracted: Option<string>,    // trafilatura.extract
    title: Option<string>)        // text of the <title> element, if there is one

  /** GET responses and HEAD statuses; a URL absent from a map is a request that raises. */
  datatype Network = Network(get: map<string, Response>, head: map<string, int>)

  const SitemapNs := "{http://www.sitemaps.org/schemas/sitemap/0.9}"
  const AtomNs := "{http://www.w3.org/2005/Atom}"

  // ---------------------------------------------------------------- XML queries

  /** All elements strictly below `n`, in document order. */
  function Descendants(n: XmlNode): seq<XmlNode>
    decreases n, 1
  {
    DescendantsOf(n.children)
  }

  function DescendantsOf(cs: seq<XmlNode>): seq<XmlNode>
    decreases cs, 0
  {
    if cs == [] then [] else [cs[0]] + Descendants(cs[0]) + DescendantsOf(cs[1..])
  }

  function WithTag(ns: seq<XmlNode>, tag: string): (r: seq<XmlNode>)
    ensures |r| <= |ns|
    ensures forall i :: 0 <= i < |r| ==> r[i].tag == tag
  {
    if ns == [] then []
    else if ns[0].tag == tag then [ns[0]] + WithTag(ns[1..], tag)
    else WithTag(ns[1..], tag)
  }

  /** `n.findall('.//tag')`. */
  function FindAll(n: XmlNode, tag: string): seq<XmlNode>
  {
    WithTag(Descendants(n), tag)
  }

  /** `n.find('.//tag')`. */
  function Find(n: XmlNode, tag: string): (r: Option<XmlNode>)
    ensures r.Some? ==> r.value.tag == tag
  {
    var all := FindAll(n, tag);
    if all == [] then None else Some(all[0])
  }

  /** `n.find('tag')`: the first direct child with that tag. */
  function FindChild(n: XmlNode, tag: string): (r: Option<XmlNode>)
    ensures r.Some? ==> r.value.tag == tag
  {
    var all := WithTag(n.children, tag);
    if all == [] then None else Some(all[0])
  }

  /** The stripped text of the first `<loc>` below `n`, or "" when there is none or it is empty. */
  function LocText(n: XmlNode): string
  {
    match Find(n, SitemapNs + "loc")
    case Some(loc) => if loc.text.Some? && loc.text.value != [] then Strip(loc.text.value) else ""
    case None => ""
  }

  // ---------------------------------------------------------- content sniffing

  /** `_is_xml_content(content_type, content)`; `contentType` is already lower-cased. */
  predicate IsXmlContent(contentType: string, content: string)
  {
    Contains(contentType, "xml") || StartsWith(Strip(content), "<?xml")
    || Contains(content, "<urlset") || Contains(content, "<sitemapindex")
    || Contains(content, "<rss") || Contains(content, "<feed")
  }

  /** `_is_html_content(content_type, content)`. */
  predicate IsHtmlContent(contentType: string, content: string)
  {
    Contains(contentType, "html") || StartsWith(Strip(content), "<!DOCTYPE") || Contains(content, "<html")
  }

  datatype Format = SitemapIndex | Urlset | Feed | Unknown

  /** The root-tag dispatch of `_parse_xml_sitemap`, in its order. */
  function FormatOf(tag: string): Format
  {
    if EndsWith(tag, "sitemapindex") || Contains(tag, "sitemapindex") then SitemapIndex
    else if EndsWith(tag, "urlset") || Contains(tag, "urlset") then Urlset
    else if Contains(Lower(tag), "rss") || Contains(Lower(tag), "feed") then Feed
    else Unknown
  }

  // ------------------------------------------- what one sitemap fetch yields

  /**
   * `_fetch_and_parse_sitemap(url)` with at most `depth` nested fetches in
   * progress. Python's recursion limit plays this role in the source: the
   * RecursionError of a too-deep sitemap-index chain is an Exception and is
   * swallowed like any other, so the innermost fetch yields the empty set.
   */
  function SitemapUrls(net: Network, valid: string -> bool, maxPages: int, url: string, depth: nat): set<string>
    decreases depth, 2
  {
    if depth == 0 || url !in net.get then {}
    else
      var resp := net.get[url];
      var ct := Lower(resp.contentType);
      if resp.status != 200 then {}
      else if IsXmlContent(ct, resp.body) then XmlUrls(net, valid, maxPages, resp.xml, depth)
      else if IsHtmlContent(ct, resp.body) then HtmlUrls(valid, maxPages, resp.anchors, {})
      else {}
  }

  /** `_parse_xml_sitemap`: a ParseError leaves the (still empty) set. */
  function XmlUrls(net: Network, valid: string -> bool, maxPages: int, doc: Option<XmlNode>, depth: nat): set<string>
    requires depth > 0
    decreases depth, 1
  {
    match doc
    case None => {}
    case Some(root) =>
      match FormatOf(root.tag)
      case SitemapIndex => IndexUrls(net, valid, maxPages, FindAll(root, SitemapNs + "sitemap"), {}, depth)
      case Urlset => UrlsetUrls(valid, maxPages, FindAll(root, SitemapNs + "url"), {})
      case Feed =>
        RssUrls(valid, FindAll(root, "item"), {}) + AtomUrls(valid, FindAll(root, AtomNs + "entry"), {})
      case Unknown => {}
  }

  /** The sitemap-index loop: merge each nested sitemap's set, stop once the cap is reached. */
  function IndexUrls(net: Network, valid: string -> bool, maxPages: int, maps: seq<XmlNode>, acc: set<string>, depth: nat): set<string>
    requires depth > 0
    decreases depth, 0, |maps|
  {
    if maps == [] then acc
    else
      var nested := LocText(maps[0]);
      if nested == [] then IndexUrls(net, valid, maxPages, maps[1..], acc, depth)
      else
        var acc' := acc + SitemapUrls(net, valid, maxPages, nested, depth - 1);
        if |acc'| >= maxPages then acc' else IndexUrls(net, valid, maxPages, maps[1..], acc', depth)
  }

  /** The urlset loop: keep valid `<loc>` URLs, stop once the cap is reached. */
  function UrlsetUrls(valid: string -> bool, maxPages: int, entries: seq<XmlNode>, acc: set<string>): set<string>
    decreases |entries|
  {
    if entries == [] then acc
    else
      var url := LocText(entries[0]);
      if url != [] && valid(url) then
        var acc' := acc + {url};
        if |acc'| >= maxPages then acc' else UrlsetUrls(valid, maxPages, entries[1..], acc')
      else UrlsetUrls(valid, maxPages, entries[1..], acc)
  }

  /** The stripped text of an RSS item's direct `<link>` child, when it has a non-empty one. */
  function ItemLink(item: XmlNode): Option<string>
  {
    var link := FindChild(item, "link");
    if link.Some? && link.value.text.Some? && link.value.text.value != [] then Some(Strip(link.value.text.value)) else None
  }

  predicate KeepsItem(valid: string -> bool, item: XmlNode)
  {
    ItemLink(item).Some? && valid(ItemLink(item).value)
  }

  /** RSS items: the stripped text of each item's direct `<link>` child, uncapped. */
  function RssUrls(valid: string -> bool, items: seq<XmlNode>, acc: set<string>): set<string>
    decreases |items|
  {
    if items == [] then acc
    else
      if KeepsItem(valid, items[0]) then RssUrls(valid, items[1..], acc + {ItemLink(items[0]).value})
      else RssUrls(valid, items[1..], acc)
  }

  /** Atom entries: the unstripped `href` of each entry's first atom `<link>`, uncapped. */
  function AtomUrls(valid: string -> bool, entries: seq<XmlNode>, acc: set<string>): set<string>
    decreases |entries|
  {
    if entries == [] then acc
    else
      var link := Find(entries[0], AtomNs + "link");
      var url := if link.Some? && "href" in link.value.attrs then link.value.attrs["href"] else "";
      if url != [] && valid(url) then AtomUrls(valid, entries[1..], acc + {url})
      else AtomUrls(valid, entries[1..], acc)
  }

  /** `_parse_html_sitemap`: keep valid anchors, stop once the cap is reached. */
  function HtmlUrls(valid: string -> bool, maxPages: int, anchors: seq<string>, acc: set<string>): set<string>
    decreases |anchors|
  {
    if anchors == [] then acc
    else if valid(anchors[0]) then
      var acc' := acc + {anchors[0]};
      if |acc'| >= maxPages then acc' else HtmlUrls(valid, maxPages, anchors[1..], acc')
    else HtmlUrls(valid, maxPages, anchors[1..], acc)
  }

  // ------------------------------------------------------ candidate locations

  /** `s.rstrip('/')`. */
  function RStripSlash(s: string): (r: string)
    ensures r == [] || r[|r| - 1] != '/'
  {
    if s != [] && s[|s| - 1] == '/' then RStripSlash(s[..|s| - 1]) else s
  }

  const BaseSuffixes: seq<string> :=
    ["/sitemap.xml", "/sitemap_index.xml", "/sitemap/sitemap.xml", "/sitemaps/sitemap.xml",
     "/sitemap/index.xml", "/sitemap-index.xml", "/wp-sitemap.xml", "/post-sitemap.xml",
     "/page-sitemap.xml", "/product-sitemap.xml", "/category-sitemap.xml", "/news-sitemap.xml",
     "/image-sitemap.xml", "/video-sitemap.xml", "/feeds/posts/sitemap.xml", "/atom.xml",
     "/rss.xml", "/feed.xml", "/feed/", "/rss/"]

  /** The www-toggled domain; `str.replace` removes every "www.", not only the leading one. */
  function AltDomain(domain: string): string
  {
    if StartsWith(domain, "www.") then ReplaceAll(domain, "www.", "") else "www." + domain
  }

  function CandidateLocations(base: string, domain: string): (r: seq<string>)
    ensures |r| == 22
    ensures forall i :: 0 <= i < 20 ==> r[i] == base + BaseSuffixes[i]
    ensures r[20] == "https://" + AltDomain(domain) + "/sitemap.xml"
    ensures r[21] == "https://" + AltDomain(domain) + "/sitemap_index.xml"
  {
    seq(20, i requires 0 <= i < 20 => base + BaseSuffixes[i])
    + ["https://" + AltDomain(domain) + "/sitemap.xml", "https://" + AltDomain(domain) + "/sitemap_index.xml"]
  }

  // --------------------------------------------------- robots.txt declarations

  /** The URL a robots.txt line declares, if its stripped, lower-cased form starts with "sitemap:". */
  function DeclaredSitemap(rawLine: string): Option<string>
  {
    var line := Strip(rawLine);
    if StartsWith(Lower(line), "sitemap:") then
      match IndexFrom(line, ':', 0)
      case Some(i) => Some(Strip(line[i + 1..]))
      case None => None
    else None
  }

  /** What each robots.txt line declares. */
  function Declarations(lines: seq<string>): (r: seq<Option<string>>)
    ensures |r| == |lines| && forall i :: 0 <= i < |lines| ==> r[i] == DeclaredSitemap(lines[i])
  {
    if lines == [] then [] else [DeclaredSitemap(lines[0])] + Declarations(lines[1..])
  }

  /** Append each declared sitemap that is not yet in the list, in file order. */
  function AppendDeclared(locations: seq<string>, decls: seq<Option<string>>): seq<string>
    decreases |decls|
  {
    if decls == [] then locations
    else AppendDeclared(AfterDeclaration(locations, decls[0]), decls[1..])
  }

  function AfterDeclaration(locations: seq<string>, d: Option<string>): seq<string>
  {
    match d
    case Some(u) => if u in locations then locations else locations + [u]
    case None => locations
  }

  lemma AppendDeclaredNext(start: seq<string>, decls: seq<Option<string>>, current: seq<string>, i: nat)
    requires i < |decls|
    ensures AppendDeclared(current, decls[i..]) == AppendDeclared(AfterDeclaration(current, decls[i]), decls[i + 1..])
  {
    assert decls[i..][0] == decls[i] && decls[i..][1..] == decls[i + 1..];
  }

  predicate NoDuplicates<T(==)>(s: seq<T>)
  {
    forall i, j :: 0 <= i < j < |s| ==> s[i] != s[j]
  }

  /**
   * Declarations only extend the list at its end, never introduce a
   * duplicate, and everything appended is one of the declared sitemaps.
   */
  lemma {:induction false} AppendDeclaredExtends(locations: seq<string>, decls: seq<Option<string>>)
    requires NoDuplicates(locations)
    ensures |AppendDeclared(locations, decls)| >= |locations|
    ensures AppendDeclared(locations, decls)[..|locations|] == locations
    ensures NoDuplicates(AppendDeclared(locations, decls))
    ensures forall i :: |locations| <= i < |AppendDeclared(locations, decls)| ==> Some(AppendDeclared(locations, decls)[i]) in decls
    decreases |decls|
  {
    if decls != [] {
      var l' := AfterDeclaration(locations, decls[0]);
      assert NoDuplicates(l') && |l'| >= |locations| && l'[..|locations|] == locations;
      AppendDeclaredExtends(l', decls[1..]);
      var r := AppendDeclared(locations, decls);
      assert r == AppendDeclared(l', decls[1..]);
      assert r[..|l'|][..|locations|] == locations;
      forall i | |locations| <= i < |r|
        ensures Some(r[i]) in decls
      {
        if i < |l'| {
          assert r[i] == r[..|l'|][i] == l'[i];
          assert Some(l'[i]) == decls[0];
        } else {
          assert Some(r[i]) in decls[1..];
        }
      }
    }
  }

  /** Every declared sitemap ends up somewhere in the list. */
  lemma {:induction false} AppendDeclaredCovers(locations: seq<string>, decls: seq<Option<string>>, k: nat)
    requires k < |decls| && decls[k].Some?
    ensures decls[k].value in AppendDeclared(locations, decls)
    decreases |decls|
  {
    var l' := AfterDeclaration(locations, decls[0]);
    if k == 0 {
      AppendDeclaredKeeps(l', decls[1..], decls[0].value);
    } else {
      assert decls[1..][k - 1] == decls[k];
      AppendDeclaredCovers(l', decls[1..], k - 1);
    }
  }

  lemma {:induction false} AppendDeclaredKeeps(locations: seq<string>, decls: seq<Option<string>>, u: string)
    requires u in locations
    ensures u in AppendDeclared(locations, decls)
    decreases |decls|
  {
    if decls != [] {
      AppendDeclaredKeeps(AfterDeclaration(locations, decls[0]), decls[1..], u);
    }
  }

  // ------------------------------------------------------------- properties

  /** Every URL of the set passes `_is_valid_url`. */
  predicate AllValid(valid: string -> bool, urls: set<string>)
  {
    forall u :: u in urls ==> valid(u)
  }

  /** Every URL any sitemap format yields passes `_is_valid_url`. */
  lemma {:induction false} SitemapUrlsValid(net: Network, valid: string -> bool, maxPages: int, url: string, depth: nat)
    ensures AllValid(valid, SitemapUrls(net, valid, maxPages, url, depth))
    decreases depth, 2
  {
    if depth > 0 && url in net.get {
      var resp := net.get[url];
      var ct := Lower(resp.contentType);
      if resp.status == 200 {
        if IsXmlContent(ct, resp.body) {
          XmlUrlsValid(net, valid, maxPages, resp.xml, depth);
        } else if IsHtmlContent(ct, resp.body) {
          HtmlUrlsValid(valid, maxPages, resp.anchors, {});
        }
      }
    }
  }

  lemma {:induction false} XmlUrlsValid(net: Network, valid: string -> bool, maxPages: int, doc: Option<XmlNode>, depth: nat)
    requires depth > 0
    ensures AllValid(valid, XmlUrls(net, valid, maxPages, doc, depth))
    decreases depth, 1
  {
    if doc.Some? {
      var root := doc.value;
      match FormatOf(root.tag)
      case SitemapIndex => IndexUrlsValid(net, valid, maxPages, FindAll(root, SitemapNs + "sitemap"), {}, depth);
      case Urlset => UrlsetUrlsValid(valid, maxPages, FindAll(root, SitemapNs + "url"), {});
      case Feed =>
        RssUrlsValid(valid, FindAll(root, "item"), {});
        AtomUrlsValid(valid, FindAll(root, AtomNs + "entry"), {});
      case Unknown =>
    }
  }

  lemma {:induction false} IndexUrlsValid(net: Network, valid: string -> bool, maxPages: int, maps: seq<XmlNode>, acc: set<string>, depth: nat)
    requires depth > 0
    requires AllValid(valid, acc)
    ensures AllValid(valid, IndexUrls(net, valid, maxPages, maps, acc, depth))
    decreases depth, 0, |maps|
  {
    if maps != [] {
      var nested := LocText(maps[0]);
      var acc' := if nested == [] then acc else acc + SitemapUrls(net, valid, maxPages, nested, depth - 1);
      if nested != [] {
        SitemapUrlsValid(net, valid, maxPages, nested, depth - 1);
      }
      IndexUrlsStep(net, valid, maxPages, maps, acc, depth);
      if nested == [] || |acc'| < maxPages {
        IndexUrlsValid(net, valid, maxPages, maps[1..], acc', depth);
      }
    }
  }

  lemma IndexUrlsStep(net: Network, valid: string -> bool, maxPages: int, maps: seq<XmlNode>, acc: set<string>, depth: nat)
    requires depth > 0 && maps != []
    ensures var nested := LocText(maps[0]);
      var acc' := if nested == [] then acc else acc + SitemapUrls(net, valid, maxPages, nested, depth - 1);
      IndexUrls(net, valid, maxPages, maps, acc, depth)
      == if nested != [] && |acc'| >= maxPages then acc' else IndexUrls(net, valid, maxPages, maps[1..], acc', depth)
  {
  }

  /** `IndexUrlsStep` at position `i` of the index, as the loop of `ParseIndex` reads it. */
  lemma IndexUrlsAt(net: Network, valid: string -> bool, maxPages: int, maps: seq<XmlNode>, i: nat, acc: set<string>,
                    depth: nat)
    requires depth > 0 && i < |maps|
    ensures LocText(maps[i]) == [] ==>
      IndexUrls(net, valid, maxPages, maps[i..], acc, depth) == IndexUrls(net, valid, maxPages, maps[i + 1..], acc, depth)
    ensures LocText(maps[i]) != [] && |acc + SitemapUrls(net, valid, maxPages, LocText(maps[i]), depth - 1)| >= maxPages ==>
      IndexUrls(net, valid, maxPages, maps[i..], acc, depth) == acc + SitemapUrls(net, valid, maxPages, LocText(maps[i]), depth - 1)
    ensures LocText(maps[i]) != [] && |acc + SitemapUrls(net, valid, maxPages, LocText(maps[i]), depth - 1)| < maxPages ==>
      IndexUrls(net, valid, maxPages, maps[i..], acc, depth)
      == IndexUrls(net, valid, maxPages, maps[i + 1..], acc + SitemapUrls(net, valid, maxPages, LocText(maps[i]), depth - 1), depth)
  {
    IndexUrlsStep(net, valid, maxPages, maps[i..], acc, depth);
    assert maps[i..][0] == maps[i] && maps[i..][1..] == maps[i + 1..];
  }

  lemma {:induction false} UrlsetUrlsValid(valid: string -> bool, maxPages: int, entries: seq<XmlNode>, acc: set<string>)
    requires AllValid(valid, acc)
    ensures AllValid(valid, UrlsetUrls(valid, maxPages, entries, acc))
    decreases |entries|
  {
    if entries != [] {
      var url := LocText(entries[0]);
      if url != [] && valid(url) {
        if |acc + {url}| < maxPages {
          UrlsetUrlsValid(valid, maxPages, entries[1..], acc + {url});
        }
      } else {
        UrlsetUrlsValid(valid, maxPages, entries[1..], acc);
      }
    }
  }

  lemma {:induction false} RssUrlsValid(valid: string -> bool, items: seq<XmlNode>, acc: set<string>)
    requires AllValid(valid, acc)
    ensures AllValid(valid, RssUrls(valid, items, acc))
    decreases |items|
  {
    if items != [] {
      if KeepsItem(valid, items[0]) {
        RssUrlsValid(valid, items[1..], acc + {ItemLink(items[0]).value});
      } else {
        RssUrlsValid(valid, items[1..], acc);
      }
    }
  }

  lemma {:induction false} AtomUrlsValid(valid: string -> bool, entries: seq<XmlNode>, acc: set<string>)
    requires AllValid(valid, acc)
    ensures AllValid(valid, AtomUrls(valid, entries, acc))
    decreases |entries|
  {
    if entries != [] {
      var link := Find(entries[0], AtomNs + "link");
      var url := if link.Some? && "href" in link.value.attrs then link.value.attrs["href"] else "";
      if url != [] && valid(url) {
        AtomUrlsValid(valid, entries[1..], acc + {url});
      } else {
        AtomUrlsValid(valid, entries[1..], acc);
      }
    }
  }

  lemma {:induction false} HtmlUrlsValid(valid: string -> bool, maxPages: int, anchors: seq<string>, acc: set<string>)
    requires AllValid(valid, acc)
    ensures AllValid(valid, HtmlUrls(valid, maxPages, anchors, acc))
    decreases |anchors|
  {
    if anchors != [] {
      if valid(anchors[0]) {
        if |acc + {anchors[0]}| < maxPages {
          HtmlUrlsValid(valid, maxPages, anchors[1..], acc + {anchors[0]});
        }
      } else {
        HtmlUrlsValid(valid, maxPages, anchors[1..], acc);
      }
    }
  }

  function Cap(maxPages: int): nat { if maxPages < 1 then 1 else maxPages }

  /** A urlset yields at most max_pages URLs (one when max_pages < 1: the check follows the add). */
  lemma {:induction false} UrlsetUrlsCapped(valid: string -> bool, maxPages: int, entries: seq<XmlNode>, acc: set<string>)
    requires |acc| < Cap(maxPages)
    ensures |UrlsetUrls(valid, maxPages, entries, acc)| <= Cap(maxPages)
    decreases |entries|
  {
    if entries != [] {
      var url := LocText(entries[0]);
      if url != [] && valid(url) {
        if |acc + {url}| < maxPages {
          UrlsetUrlsCapped(valid, maxPages, entries[1..], acc + {url});
        }
      } else {
        UrlsetUrlsCapped(valid, maxPages, entries[1..], acc);
      }
    }
  }

  /** An HTML sitemap page yields at most max_pages URLs. */
  lemma {:induction false} HtmlUrlsCapped(valid: string -> bool, maxPages: int, anchors: seq<string>, acc: set<string>)
    requires |acc| < Cap(maxPages)
    ensures |HtmlUrls(valid, maxPages, anchors, acc)| <= Cap(maxPages)
    decreases |anchors|
  {
    if anchors != [] {
      if valid(anchors[0]) {
        if |acc + {anchors[0]}| < maxPages {
          HtmlUrlsCapped(valid, maxPages, anchors[1..], acc + {anchors[0]});
        }
      } else {
        HtmlUrlsCapped(valid, maxPages, anchors[1..], acc);
      }
    }
  }

  lemma RssUrlsStep(valid: string -> bool, items: seq<XmlNode>, acc: set<string>)
    requires items != []
    ensures RssUrls(valid, items, acc)
            == RssUrls(valid, items[1..], if KeepsItem(valid, items[0]) then acc + {ItemLink(items[0]).value} else acc)
  {
  }

  /** A feed is not capped: every valid item link is kept, however many there are. */
  lemma {:induction false} RssUrlsUncapped(valid: string -> bool, items: seq<XmlNode>, acc: set<string>, k: nat)
    requires k < |items| && KeepsItem(valid, items[k])
    ensures ItemLink(items[k]).value in RssUrls(valid, items, acc)
    decreases |items|
  {
    RssUrlsStep(valid, items, acc);
    var acc' := if KeepsItem(valid, items[0]) then acc + {ItemLink(items[0]).value} else acc;
    if k == 0 {
      RssUrlsKeeps(valid, items[1..], acc', ItemLink(items[0]).value);
    } else {
      assert items[1..][k - 1] == items[k];
      RssUrlsUncapped(valid, items[1..], acc', k - 1);
    }
  }

  lemma {:induction false} RssUrlsKeeps(valid: string -> bool, items: seq<XmlNode>, acc: set<string>, u: string)
    requires u in acc
    ensures u in RssUrls(valid, items, acc)
    decreases |items|
  {
    if items != [] {
      RssUrlsStep(valid, items, acc);
      RssUrlsKeeps(valid, items[1..], if KeepsItem(valid, items[0]) then acc + {ItemLink(items[0]).value} else acc, u);
    }
  }

  /**
   * The fetch guard: nothing on a failed request or a non-200 status, the
   * XML reading whenever the body sniffs as XML (even if it also sniffs as
   * HTML), and nothing when it is neither.
   */
  lemma FetchGuards(net: Network, valid: string -> bool, maxPages: int, url: string, depth: nat)
    requires depth > 0
    ensures url !in net.get ==> SitemapUrls(net, valid, maxPages, url, depth) == {}
    ensures url in net.get && net.get[url].status != 200 ==> SitemapUrls(net, valid, maxPages, url, depth) == {}
    ensures url in net.get && net.get[url].status == 200
            && IsXmlContent(Lower(net.get[url].contentType), net.get[url].body)
            ==> SitemapUrls(net, valid, maxPages, url, depth) == XmlUrls(net, valid, maxPages, net.get[url].xml, depth)
    ensures url in net.get && net.get[url].status == 200
            && !IsXmlContent(Lower(net.get[url].contentType), net.get[url].body)
            && !IsHtmlContent(Lower(net.get[url].contentType), net.get[url].body)
            ==> SitemapUrls(net, valid, maxPages, url, depth) == {}
  {
  }

  // ------------------------------------------------------------ discovery loop

  /** The candidate loop of `discover_sitemaps`: merge whole sets, stop once the cap is reached. */
  function DiscoverLoop(net: Network, valid: string -> bool, maxPages: int, locations: seq<string>, acc: set<string>, depth: nat): set<string>
    decreases |locations|
  {
    if locations == [] then acc
    else
      var urls := SitemapUrls(net, valid, maxPages, locations[0], depth);
      if urls != {} then
        var acc' := acc + urls;
        if |acc'| >= maxPages then acc' else DiscoverLoop(net, valid, maxPages, locations[1..], acc', depth)
      else DiscoverLoop(net, valid, maxPages, locations[1..], acc, depth)
  }

  function UnionOver(net: Network, valid: string -> bool, maxPages: int, locations: seq<string>, depth: nat): set<string>
    decreases |locations|
  {
    if locations == [] then {}
    else SitemapUrls(net, valid, maxPages, locations[0], depth) + UnionOver(net, valid, maxPages, locations[1..], depth)
  }

  /**
   * Discovery ends below the cap only after trying every candidate: then the
   * result is everything all candidates yield. Any result also contains the
   * starting set and is contained in it plus everything the candidates yield.
   */
  lemma {:induction false} DiscoverLoopStops(net: Network, valid: string -> bool, maxPages: int, locations: seq<string>, acc: set<string>, depth: nat)
    ensures var r := DiscoverLoop(net, valid, maxPages, locations, acc, depth);
      acc <= r && r <= acc + UnionOver(net, valid, maxPages, locations, depth)
      && (|r| < maxPages ==> r == acc + UnionOver(net, valid, maxPages, locations, depth))
    decreases |locations|
  {
    if locations != [] {
      var urls := SitemapUrls(net, valid, maxPages, locations[0], depth);
      DiscoverLoopStops(net, valid, maxPages, locations[1..], if urls != {} then acc + urls else acc, depth);
      if urls != {} && |acc + urls| >= maxPages {
      }
    }
  }

  /**
   * The loop tried exactly the first `n` candidates and returned `r`: it
   * stopped early only right after a candidate that yielded URLs pushed the
   * total to the cap, and no earlier such candidate had reached it.
   */
  ghost predicate StopsAt(net: Network, valid: string -> bool, maxPages: int, locations: seq<string>, acc: set<string>, depth: nat, n: nat, r: set<string>)
  {
    && n <= |locations|
    && r == acc + UnionOver(net, valid, maxPages, locations[..n], depth)
    && (n < |locations| ==> 0 < n && SitemapUrls(net, valid, maxPages, locations[n - 1], depth) != {} && |r| >= maxPages)
    && (forall m :: 0 < m < n && SitemapUrls(net, valid, maxPages, locations[m - 1], depth) != {}
          ==> |acc + UnionOver(net, valid, maxPages, locations[..m], depth)| < maxPages)
  }

  lemma UnionOverPrefix(net: Network, valid: string -> bool, maxPages: int, locations: seq<string>, depth: nat, n: nat)
    requires 0 < n <= |locations|
    ensures UnionOver(net, valid, maxPages, locations[..n], depth)
      == SitemapUrls(net, valid, maxPages, locations[0], depth) + UnionOver(net, valid, maxPages, locations[1..][..n - 1], depth)
  {
    assert locations[..n][0] == locations[0] && locations[..n][1..] == locations[1..][..n - 1];
  }

  /** A candidate tried without reaching the cap adds one to the candidates tried. */
  lemma StopsAtCons(net: Network, valid: string -> bool, maxPages: int, locations: seq<string>, acc: set<string>, acc': set<string>, depth: nat, n': nat, r: set<string>)
    requires locations != [] && acc' == acc + SitemapUrls(net, valid, maxPages, locations[0], depth)
    requires SitemapUrls(net, valid, maxPages, locations[0], depth) != {} ==> |acc'| < maxPages
    requires StopsAt(net, valid, maxPages, locations[1..], acc', depth, n', r)
    ensures StopsAt(net, valid, maxPages, locations, acc, depth, n' + 1, r)
  {
    UnionOverPrefix(net, valid, maxPages, locations, depth, n' + 1);
    BelowCapBefore(net, valid, maxPages, locations, acc, acc', depth, n', r);
    if n' + 1 < |locations| {
      assert locations[n'] == locations[1..][n' - 1];
    }
  }

  lemma BelowCapBefore(net: Network, valid: string -> bool, maxPages: int, locations: seq<string>, acc: set<string>, acc': set<string>, depth: nat, n': nat, r: set<string>)
    requires locations != [] && acc' == acc + SitemapUrls(net, valid, maxPages, locations[0], depth)
    requires SitemapUrls(net, valid, maxPages, locations[0], depth) != {} ==> |acc'| < maxPages
    requires StopsAt(net, valid, maxPages, locations[1..], acc', depth, n', r)
    ensures forall m :: 0 < m < n' + 1 && SitemapUrls(net, valid, maxPages, locations[m - 1], depth) != {}
                ==> |acc + UnionOver(net, valid, maxPages, locations[..m], depth)| < maxPages
  {
    forall m | 0 < m < n' + 1 && SitemapUrls(net, valid, maxPages, locations[m - 1], depth) != {}
      ensures |acc + UnionOver(net, valid, maxPages, locations[..m], depth)| < maxPages
    {
      PrefixFromTail(net, valid, maxPages, locations, acc, acc', depth, m);
    }
  }

  /** The first `m` candidates seen from the list seen from its second candidate. */
  lemma PrefixFromTail(net: Network, valid: string -> bool, maxPages: int, locations: seq<string>, acc: set<string>, acc': set<string>, depth: nat, m: nat)
    requires 0 < m <= |locations|
    requires acc' == acc + SitemapUrls(net, valid, maxPages, locations[0], depth)
    ensures 1 < m ==> locations[m - 1] == locations[1..][m - 2]
    ensures acc + UnionOver(net, valid, maxPages, locations[..m], depth) == acc' + UnionOver(net, valid, maxPages, locations[1..][..m - 1], depth)
  {
    UnionOverPrefix(net, valid, maxPages, locations, depth, m);
  }

  /** Discovery stops at the first candidate whose URLs bring the total to `max_pages`, and only there. */
  lemma {:induction false} DiscoverLoopStopsAtCap(net: Network, valid: string -> bool, maxPages: int, locations: seq<string>, acc: set<string>, depth: nat)
    ensures exists n :: StopsAt(net, valid, maxPages, locations, acc, depth, n, DiscoverLoop(net, valid, maxPages, locations, acc, depth))
    decreases |locations|
  {
    var r := DiscoverLoop(net, valid, maxPages, locations, acc, depth);
    if locations == [] {
      assert locations[..0] == [];
      assert StopsAt(net, valid, maxPages, locations, acc, depth, 0, r);
    } else {
      var urls := SitemapUrls(net, valid, maxPages, locations[0], depth);
      UnionOverPrefix(net, valid, maxPages, locations, depth, 1);
      assert locations[1..][..0] == [];
      if urls != {} && |acc + urls| >= maxPages {
        assert StopsAt(net, valid, maxPages, locations, acc, depth, 1, r);
      } else {
        var acc' := acc + urls;
        assert r == DiscoverLoop(net, valid, maxPages, locations[1..], acc', depth);
        DiscoverLoopStopsAtCap(net, valid, maxPages, locations[1..], acc', depth);
        var n': nat :| StopsAt(net, valid, maxPages, locations[1..], acc', depth, n', r);
        StopsAtCons(net, valid, maxPages, locations, acc, acc', depth, n', r);
      }
    }
  }

  // ------------------------------------------------------------ the object

  class SitemapDiscovery {
    const baseUrl: string
    const domain: string
    const maxPages: int
    /** `_is_valid_url` against this discovery's domain. */
    const valid: string -> bool
    var discoveredUrls: set<string>
    var sitemapLocations: seq<string>

    /** `SitemapDiscovery(base_url, max_pages)`; `urlparse` must accept the base URL. */
    constructor (base: string, pages: int)
      requires Parse(base).Ok?
      ensures baseUrl == RStripSlash(base) && domain == Parse(base).value.netloc && maxPages == pages
      ensures forall u :: valid(u) == IsValidUrl(domain, u)
      ensures discoveredUrls == {}
      ensures sitemapLocations == CandidateLocations(baseUrl, domain)
    {
      baseUrl := RStripSlash(base);
      var d := Parse(base).value.netloc;
      domain := d;
      valid := u => IsValidUrl(d, u);
      maxPages := pages;
      discoveredUrls := {};
      sitemapLocations := CandidateLocations(RStripSlash(base), Parse(base).value.netloc);
    }

    /**
     * `SitemapDiscovery(base_url, max_pages)` seen from its caller: a base URL
     * `urlparse` rejects raises its `ValueError` instead of building an object.
     */
    static method Create(base: string, pages: int) returns (r: Result<SitemapDiscovery, ParseError>)
      ensures r.Err? <==> Parse(base).Err?
      ensures r.Err? ==> r.error == Parse(base).error
      ensures r.Ok? ==> fresh(r.value) && r.value.baseUrl == RStripSlash(base) && r.value.domain == Parse(base).value.netloc
      ensures r.Ok? ==> r.value.maxPages == pages && r.value.discoveredUrls == {}
      ensures r.Ok? ==> r.value.sitemapLocations == CandidateLocations(r.value.baseUrl, r.value.domain)
    {
      match Parse(base)
      case Err(e) => r := Err(e);
      case Ok(_) =>
        var d := new SitemapDiscovery(base, pages);
        r := Ok(d);
    }

    /** The API layer's `sitemap_override`: tried before every other candidate. */
    method InsertOverride(url: string)
      modifies this`sitemapLocations
      ensures sitemapLocations == [url] + old(sitemapLocations)
    {
      sitemapLocations := [url] + sitemapLocations;
    }

    /** `_check_robots_txt`: append sitemaps declared in `{base_url}/robots.txt`. */
    method CheckRobotsTxt(net: Network)
      modifies this`sitemapLocations
      ensures var robots := baseUrl + "/robots.txt";
        sitemapLocations ==
          if robots in net.get && net.get[robots].status == 200
          then AppendDeclared(old(sitemapLocations), Declarations(SplitOn(net.get[robots].body, '\n')))
          else old(sitemapLocations)
    {
      var robots := baseUrl + "/robots.txt";
      if robots in net.get && net.get[robots].status == 200 {
        AppendDeclaredSitemaps(Declarations(SplitOn(net.get[robots].body, '\n')));
      }
    }

    /** The loop over the lines of robots.txt, each line already read as a declaration or not. */
    method AppendDeclaredSitemaps(decls: seq<Option<string>>)
      modifies this`sitemapLocations
      ensures sitemapLocations == AppendDeclared(old(sitemapLocations), decls)
    {
      var i := 0;
      while i < |decls|
        invariant 0 <= i <= |decls|
        invariant AppendDeclared(old(sitemapLocations), decls) == AppendDeclared(sitemapLocations, decls[i..])
      {
        AppendDeclaredNext(old(sitemapLocations), decls, sitemapLocations, i);
        if decls[i].Some? && decls[i].value !in sitemapLocations {
          sitemapLocations := sitemapLocations + [decls[i].value];
        }
        i := i + 1;
      }
    }

    /** `_fetch_and_parse_sitemap(url)`. */
    method FetchAndParseSitemap(net: Network, url: string, depth: nat) returns (urls: set<string>)
      ensures urls == SitemapUrls(net, valid, maxPages, url, depth)
      decreases depth, 3
    {
      if depth == 0 || url !in net.get {
        return {};
      }
      var resp := net.get[url];
      if resp.status != 200 {
        return {};
      }
      var contentType := Lower(resp.contentType);
      if IsXmlContent(contentType, resp.body) {
        urls := ParseXmlSitemap(net, resp.xml, depth);
      } else if IsHtmlContent(contentType, resp.body) {
        urls := ParseHtmlSitemap(resp.anchors);
      } else {
        urls := {};
      }
    }

    /** `_parse_xml_sitemap`. */
    method ParseXmlSitemap(net: Network, doc: Option<XmlNode>, depth: nat) returns (urls: set<string>)
      requires depth > 0
      ensures urls == XmlUrls(net, valid, maxPages, doc, depth)
      decreases depth, 2
    {
      urls := {};
      if doc.None? {
        return;
      }
      var root := doc.value;
      match FormatOf(root.tag)
      case SitemapIndex =>
        urls := ParseIndex(net, FindAll(root, SitemapNs + "sitemap"), depth);
      case Urlset =>
        urls := ParseUrlset(FindAll(root, SitemapNs + "url"));
      case Feed =>
        var rss := ParseRssItems(FindAll(root, "item"));
        var atom := ParseAtomEntries(FindAll(root, AtomNs + "entry"));
        urls := rss + atom;
      case Unknown =>
    }

    /** The sitemap-index branch: fetch every nested `<loc>` until the cap is reached. */
    method ParseIndex(net: Network, maps: seq<XmlNode>, depth: nat) returns (urls: set<string>)
      requires depth > 0
      ensures urls == IndexUrls(net, valid, maxPages, maps, {}, depth)
      decreases depth, 1
    {
      urls := {};
      var i := 0;
      while i < |maps|
        invariant 0 <= i <= |maps|
        invariant IndexUrls(net, valid, maxPages, maps, {}, depth) == IndexUrls(net, valid, maxPages, maps[i..], urls, depth)
      {
        var stop;
        urls, stop := IndexEntry(net, maps, i, urls, depth);
        if stop {
          return;
        }
        i := i + 1;
      }
    }

    /** One entry of the index loop: merge the nested sitemap's URLs, if it names one, and test the cap. */
    method IndexEntry(net: Network, maps: seq<XmlNode>, i: nat, acc: set<string>, depth: nat)
      returns (urls: set<string>, stop: bool)
      requires depth > 0 && i < |maps|
      ensures acc <= urls && (stop ==> |urls| >= maxPages)
      ensures stop ==> IndexUrls(net, valid, maxPages, maps[i..], acc, depth) == urls
      ensures !stop ==> IndexUrls(net, valid, maxPages, maps[i..], acc, depth) == IndexUrls(net, valid, maxPages, maps[i + 1..], urls, depth)
      decreases depth, 0
    {
      IndexUrlsAt(net, valid, maxPages, maps, i, acc, depth);
      urls, stop := acc, false;
      var nested := LocText(maps[i]);
      if nested != [] {
        var nestedUrls := FetchAndParseSitemap(net, nested, depth - 1);
        urls := acc + nestedUrls;
        stop := |urls| >= maxPages;
      }
    }

    /** The urlset branch. */
    method ParseUrlset(entries: seq<XmlNode>) returns (urls: set<string>)
      ensures urls == UrlsetUrls(valid, maxPages, entries, {})
    {
      urls := {};
      var i := 0;
      while i < |entries|
        invariant 0 <= i <= |entries|
        invariant UrlsetUrls(valid, maxPages, entries, {}) == UrlsetUrls(valid, maxPages, entries[i..], urls)
      {
        var url := LocText(entries[i]);
        if url != [] && valid(url) {
          urls := urls + {url};
          if |urls| >= maxPages {
            return;
          }
        }
        i := i + 1;
      }
    }

    /** The RSS half of the feed branch. */
    method ParseRssItems(items: seq<XmlNode>) returns (urls: set<string>)
      ensures urls == RssUrls(valid, items, {})
    {
      urls := {};
      var i := 0;
      while i < |items|
        invariant 0 <= i <= |items|
        invariant RssUrls(valid, items, {}) == RssUrls(valid, items[i..], urls)
      {
        var link := FindChild(items[i], "link");
        if link.Some? && link.value.text.Some? && link.value.text.value != [] {
          var url := Strip(link.value.text.value);
          if valid(url) {
            urls := urls + {url};
          }
        }
        i := i + 1;
      }
    }

    /** The Atom half of the feed branch. */
    method ParseAtomEntries(entries: seq<XmlNode>) returns (urls: set<string>)
      ensures urls == AtomUrls(valid, entries, {})
    {
      urls := {};
      var j := 0;
      while j < |entries|
        invariant 0 <= j <= |entries|
        invariant AtomUrls(valid, entries, {}) == AtomUrls(valid, entries[j..], urls)
      {
        var link := Find(entries[j], AtomNs + "link");
        if link.Some? && "href" in link.value.attrs {
          var url := link.value.attrs["href"];
          if url != [] && valid(url) {
            urls := urls + {url};
          }
        }
        j := j + 1;
      }
    }

    /** `_parse_html_sitemap`. */
    method ParseHtmlSitemap(anchors: seq<string>) returns (urls: set<string>)
      ensures urls == HtmlUrls(valid, maxPages, anchors, {})
    {
      urls := {};
      var i := 0;
      while i < |anchors|
        invariant 0 <= i <= |anchors|
        invariant HtmlUrls(valid, maxPages, anchors, {}) == HtmlUrls(valid, maxPages, anchors[i..], urls)
      {
        if valid(anchors[i]) {
          urls := urls + {anchors[i]};
          if |urls| >= maxPages {
            return;
          }
        }
        i := i + 1;
      }
    }

    /** `discover_sitemaps`: robots.txt first, then every candidate in order until the cap is reached. */
    method DiscoverSitemaps(net: Network, depth: nat) returns (found: set<string>)
      modifies this
      ensures var robots := baseUrl + "/robots.txt";
        sitemapLocations ==
          if robots in net.get && net.get[robots].status == 200
          then AppendDeclared(old(sitemapLocations), Declarations(SplitOn(net.get[robots].body, '\n')))
          else old(sitemapLocations)
      ensures discoveredUrls == DiscoverLoop(net, valid, maxPages, sitemapLocations, old(discoveredUrls), depth)
      ensures found == discoveredUrls
    {
      CheckRobotsTxt(net);
      ghost var locations := sitemapLocations;
      var i := 0;
      while i < |sitemapLocations|
        invariant sitemapLocations == locations
        invariant 0 <= i <= |sitemapLocations|
        invariant DiscoverLoop(net, valid, maxPages, sitemapLocations, old(discoveredUrls), depth)
                  == DiscoverLoop(net, valid, maxPages, sitemapLocations[i..], discoveredUrls, depth)
      {
        var urls := FetchAndParseSitemap(net, sitemapLocations[i], depth);
        if urls != {} {
          discoveredUrls := discoveredUrls + urls;
          if |discoveredUrls| >= maxPages {
            break;
          }
        }
        i := i + 1;
      }
      found := discoveredUrls;
    }
  }
}
