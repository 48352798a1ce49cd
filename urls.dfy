/**
 * URL components as Python's `urllib.parse.urlparse` splits them (the
 * CPython 3.12 rules, also those of 3.11.4 on, for scheme, `//netloc`,
 * `;params`, `?query` and `#fragment`, with the `ValueError`s raised for
 * square brackets in the netloc), and the crawler's two URL filters built
 * on them.
 */
module Urls {
  import opened Wrappers
  import opened Text

  datatype UrlParts = UrlParts(scheme: string, netloc: string, path: string, params: string, query: string, fragment: string)

  /**
   * The `ValueError`s `urlparse` raises: a netloc with one square bracket but
   * not the other, and a bracketed host that `_check_bracketed_host` refuses
   * (a malformed "v..." future address, an IPv4 address, or text that is no
   * IP address at all).
   */
  datatype ParseError = InvalidIPv6 | InvalidIPvFuture | BracketedIPv4 | NotAnIpAddress

  /** Last index of `c` in `s`. */
  function RFind(s: string, c: char): (r: Option<nat>)
    ensures r.Some? ==> r.value < |s| && s[r.value] == c
    ensures r.Some? ==> forall k :: r.value < k < |s| ==> s[k] != c
    ensures r.None? ==> c !in s
  {
    if s == [] then None
    else if s[|s| - 1] == c then Some(|s| - 1)
    else RFind(s[..|s| - 1], c)
  }

  predicate IsAsciiAlpha(c: char) { 'a' <= c <= 'z' || 'A' <= c <= 'Z' }

  /** `urllib.parse.scheme_chars`. */
  predicate IsSchemeChar(c: char) { IsAsciiAlpha(c) || IsDigit(c) || c == '+' || c == '-' || c == '.' }

  /** The C0 controls and space, stripped from the front of every URL. */
  predicate IsC0OrSpace(c: char) { c as int <= 32 }

  function LStripC0(s: string): (r: string)
    ensures |r| <= |s|
  {
    if s != [] && IsC0OrSpace(s[0]) then LStripC0(s[1..]) else s
  }

  /** Tab, CR and LF are deleted anywhere in the URL. */
  function RemoveUnsafe(s: string): (r: string)
    ensures '\t' !in r && '\r' !in r && '\n' !in r
  {
    if s == [] then []
    else if s[0] == '\t' || s[0] == '\r' || s[0] == '\n' then RemoveUnsafe(s[1..])
    else [s[0]] + RemoveUnsafe(s[1..])
  }

  /** `_splitnetloc(url, 2)`: the netloc ends at the first '/', '?' or '#'. */
  function NetlocEnd(s: string, from: nat): (r: nat)
    requires from <= |s|
    ensures from <= r <= |s|
    ensures forall k :: from <= k < r ==> s[k] != '/' && s[k] != '?' && s[k] != '#'
    ensures r < |s| ==> s[r] == '/' || s[r] == '?' || s[r] == '#'
    decreases |s| - from
  {
    if from == |s| || s[from] == '/' || s[from] == '?' || s[from] == '#' then from
    else NetlocEnd(s, from + 1)
  }

  predicate AllSchemeChars(s: string) { forall k :: 0 <= k < |s| ==> IsSchemeChar(s[k]) }

  /** The schemes of `urllib.parse.uses_params`. */
  predicate UsesParams(scheme: string)
  {
    scheme in {"", "ftp", "hdl", "prospero", "http", "imap", "https", "shttp", "rtsp", "rtsps",
                "rtspu", "sip", "sips", "mms", "sftp", "tel"}
  }

  /** `_splitparams`: params start at the first ';' of the last path segment. */
  function SplitParams(p: string): (r: (string, string))
    ensures forall c :: c in r.0 ==> c in p
  {
    match RFind(p, '/')
    case Some(slash) =>
      (match IndexFrom(p, ';', slash)
       case Some(i) => (p[..i], p[i + 1..])
       case None => (p, ""))
    case None =>
      (match IndexFrom(p, ';', 0)
       case Some(i) => (p[..i], p[i + 1..])
       case None => (p, ""))
  }

  /** The scheme: text before the first ':' if it starts with a letter and is all scheme characters. */
  function SplitScheme(u: string): (r: (string, string))
    ensures forall c :: c in r.1 ==> c in u
  {
    var colon := IndexFrom(u, ':', 0);
    if colon.Some? && colon.value > 0 && IsAsciiAlpha(u[0]) && AllSchemeChars(u[..colon.value])
    then (Lower(u[..colon.value]), u[colon.value + 1..])
    else ("", u)
  }

  /** The netloc: after a leading "//", up to the first '/', '?' or '#'. */
  function SplitNetloc(u: string): (r: (string, string))
    ensures '/' !in r.0 && '?' !in r.0 && '#' !in r.0
    ensures forall c :: c in r.1 ==> c in u
  {
    if |u| >= 2 && u[..2] == "//" then
      var e := NetlocEnd(u, 2);
      assert forall k :: 0 <= k < e - 2 ==> u[2..e][k] == u[2 + k];
      (u[2..e], u[e..])
    else ("", u)
  }

  /** Fragment after the first '#', then query after the first '?'. */
  function SplitQueryFragment(u: string): (r: (string, string, string))
    ensures '?' !in r.0 && '#' !in r.0
    ensures forall c :: c in r.0 ==> c in u
  {
    var hash := IndexFrom(u, '#', 0);
    var u3 := if hash.Some? then u[..hash.value] else u;
    var fragment := if hash.Some? then u[hash.value + 1..] else "";
    var qm := IndexFrom(u3, '?', 0);
    var rest := if qm.Some? then u3[..qm.value] else u3;
    var query := if qm.Some? then u3[qm.value + 1..] else "";
    (rest, query, fragment)
  }

  function PathAndParams(scheme: string, u: string): (r: (string, string))
    ensures forall c :: c in r.0 ==> c in u
  {
    if UsesParams(scheme) && ';' in u then SplitParams(u) else (u, "")
  }

  predicate UnbalancedBrackets(netloc: string)
  {
    ('[' in netloc && ']' !in netloc) || (']' in netloc && '[' !in netloc)
  }

  predicate IsHexDigit(c: char) { IsDigit(c) || 'a' <= c <= 'f' || 'A' <= c <= 'F' }

  predicate AllDigits(s: string) { forall k :: 0 <= k < |s| ==> IsDigit(s[k]) }

  predicate AllHexDigits(s: string) { forall k :: 0 <= k < |s| ==> IsHexDigit(s[k]) }

  /** `int(s, 10)` of a string of ASCII digits. */
  function DecimalValue(s: string): nat
    requires AllDigits(s)
  {
    if s == [] then 0 else DecimalValue(s[..|s| - 1]) * 10 + (s[|s| - 1] as int - '0' as int)
  }

  /** `IPv4Address._parse_octet`: one to three ASCII digits, no leading zero, at most 255. */
  predicate IsOctet(s: string)
  {
    0 < |s| <= 3 && AllDigits(s) && (s == "0" || s[0] != '0') && DecimalValue(s) <= 255
  }

  /** `ipaddress.IPv4Address(s)` succeeds: four dot-separated octets. */
  predicate IsIPv4(s: string)
  {
    '/' !in s && s != [] && |SplitOn(s, '.')| == 4 && forall i :: 0 <= i < 4 ==> IsOctet(SplitOn(s, '.')[i])
  }

  /** `IPv6Address._parse_hextet`: one to four hexadecimal digits. */
  predicate IsHextet(s: string) { 0 < |s| <= 4 && AllHexDigits(s) }

  predicate AllHextets(parts: seq<string>) { forall i :: 0 <= i < |parts| ==> IsHextet(parts[i]) }

  /** The first empty part at an index in `[from, stop)`. */
  function FirstEmpty(parts: seq<string>, from: nat, stop: nat): (r: Option<nat>)
    requires from <= stop <= |parts|
    ensures r.Some? ==> from <= r.value < stop && parts[r.value] == []
    ensures r.Some? ==> forall i :: from <= i < r.value ==> parts[i] != []
    ensures r.None? ==> forall i :: from <= i < stop ==> parts[i] != []
    decreases stop - from
  {
    if from == stop then None
    else if parts[from] == [] then Some(from)
    else FirstEmpty(parts, from + 1, stop)
  }

  /**
   * The hextet layout `IPv6Address._ip_int_from_string` accepts: at most one
   * interior empty part (the "::"); with it, an empty first or last part only
   * as part of that "::", at least one hextet left out, and every written
   * hextet well formed; without it, exactly eight well-formed hextets.
   */
  predicate HextetLayout(parts: seq<string>)
    requires |parts| >= 3
  {
    var n := |parts|;
    match FirstEmpty(parts, 1, n - 1)
    case Some(skip) =>
      FirstEmpty(parts, skip + 1, n - 1).None?
      && (parts[0] == [] ==> skip == 1)
      && (parts[n - 1] == [] ==> skip == n - 2)
      && var hi := if parts[0] == [] then 0 else skip;
         var lo := if parts[n - 1] == [] then 0 else n - skip - 1;
         hi + lo <= 7 && AllHextets(parts[..hi]) && AllHextets(parts[n - lo..])
    case None =>
      n == 8 && AllHextets(parts)
  }

  /**
   * `ipaddress.IPv6Address(s)` succeeds: an optional non-empty `%scope` without
   * a second '%', then at least three ':'-separated parts, of which the last
   * may be an IPv4 address standing for two hextets, at most nine parts in
   * all, in a `HextetLayout`.
   */
  predicate IsIPv6(s: string)
  {
    '/' !in s &&
    var pct := IndexFrom(s, '%', 0);
    var addr := if pct.Some? then s[..pct.value] else s;
    (pct.None? || (s[pct.value + 1..] != [] && '%' !in s[pct.value + 1..]))
    && addr != []
    && var parts0 := SplitOn(addr, ':');
       |parts0| >= 3
       && var last := parts0[|parts0| - 1];
          ('.' in last ==> IsIPv4(last))
          && var parts := if '.' in last then parts0[..|parts0| - 1] + ["0", "0"] else parts0;
             |parts| <= 9 && HextetLayout(parts)
  }

  /** `re.match(r"\Av[a-fA-F0-9]+\..+\Z", h)`. */
  predicate IsIPvFuture(h: string)
  {
    h != [] && h[0] == 'v' &&
    match IndexFrom(h, '.', 1)
    case Some(dot) => 2 <= dot < |h| - 1 && AllHexDigits(h[1..dot]) && '\n' !in h[dot + 1..]
    case None => false
  }

  /** `netloc.partition('[')[2].partition(']')[0]`. */
  function BracketedHost(netloc: string): string
  {
    match IndexFrom(netloc, '[', 0)
    case None => ""
    case Some(open) =>
      var rest := netloc[open + 1..];
      match IndexFrom(rest, ']', 0)
      case Some(close) => rest[..close]
      case None => rest
  }

  /** `_check_bracketed_host(h)`: the error it raises, if any. */
  function CheckBracketedHost(h: string): Option<ParseError>
  {
    if h != [] && h[0] == 'v' then (if IsIPvFuture(h) then None else Some(InvalidIPvFuture))
    else if IsIPv4(h) then Some(BracketedIPv4)
    else if IsIPv6(h) then None
    else Some(NotAnIpAddress)
  }

  /** The bracket checks `urlsplit` makes on the netloc. */
  function NetlocError(netloc: string): (r: Option<ParseError>)
    ensures r == Some(InvalidIPv6) <==> UnbalancedBrackets(netloc)
    ensures r.None? && '[' in netloc ==> ']' in netloc && CheckBracketedHost(BracketedHost(netloc)).None?
  {
    if UnbalancedBrackets(netloc) then Some(InvalidIPv6)
    else if '[' in netloc && ']' in netloc then CheckBracketedHost(BracketedHost(netloc))
    else None
  }

  /** `urlparse(url)`. */
  function Parse(url: string): (r: Result<UrlParts, ParseError>)
    ensures r.Ok? ==> '?' !in r.value.path && '#' !in r.value.path && '\n' !in r.value.path
    ensures r.Ok? ==> '/' !in r.value.netloc && '?' !in r.value.netloc && '#' !in r.value.netloc
    ensures r.Ok? && '[' in r.value.netloc ==>
              ']' in r.value.netloc && CheckBracketedHost(BracketedHost(r.value.netloc)).None?
    ensures r.Ok? && ']' in r.value.netloc ==> '[' in r.value.netloc
  {
    var u0 := RemoveUnsafe(LStripC0(url));
    var sch := SplitScheme(u0);
    var nl := SplitNetloc(sch.1);
    if NetlocError(nl.0).Some? then Err(NetlocError(nl.0).value)
    else
      var qf := SplitQueryFragment(nl.1);
      var pp := PathAndParams(sch.0, qf.0);
      Ok(UrlParts(sch.0, nl.0, pp.0, pp.1, qf.1, qf.2))
  }

  lemma {:induction false} RemoveUnsafeNoop(s: string)
    requires '\t' !in s && '\r' !in s && '\n' !in s
    ensures RemoveUnsafe(s) == s
  {
    if s != [] {
      RemoveUnsafeNoop(s[1..]);
      assert s == [s[0]] + s[1..];
    }
  }

  /** The scheme of `scheme:rest`, for a lower-case scheme starting with a letter. */
  lemma SchemeOf(scheme: string, rest: string)
    requires scheme != [] && IsAsciiAlpha(scheme[0]) && AllSchemeChars(scheme) && Lower(scheme) == scheme
    ensures SplitScheme(scheme + ":" + rest) == (scheme, rest)
  {
    var u := scheme + ":" + rest;
    var n := |scheme|;
    assert u[n] == ':' && u[..n] == scheme && u[n + 1..] == rest;
    assert forall k :: 0 <= k < n ==> u[k] == scheme[k] && IsSchemeChar(scheme[k]);
    assert IndexFrom(u, ':', 0) == Some(n);
  }

  /** The netloc of `//netloc/path`. */
  lemma NetlocOf(netloc: string, path: string)
    requires '/' !in netloc && '?' !in netloc && '#' !in netloc
    requires path == [] || path[0] == '/'
    ensures SplitNetloc("//" + netloc + path) == (netloc, path)
  {
    var u := "//" + netloc + path;
    var e := NetlocEnd(u, 2);
    assert forall k :: 2 <= k < 2 + |netloc| ==> u[k] == netloc[k - 2];
    if path != [] {
      assert u[2 + |netloc|] == path[0];
    }
    assert u[2..e] == netloc && u[e..] == path;
  }

  /**
   * A URL written `scheme://netloc/path`, with a lower-case scheme and no
   * query, fragment or params, splits into exactly those parts, unless the
   * netloc's square brackets make `urlsplit` raise.
   */
  lemma PlainUrlParts(url: string, scheme: string, netloc: string, path: string)
    requires url == scheme + "://" + netloc + path
    requires scheme != [] && IsAsciiAlpha(scheme[0]) && AllSchemeChars(scheme) && Lower(scheme) == scheme
    requires '/' !in netloc && '?' !in netloc && '#' !in netloc
    requires path == [] || path[0] == '/'
    requires '?' !in path && '#' !in path && ';' !in path
    requires '\t' !in netloc && '\r' !in netloc && '\n' !in netloc
    requires '\t' !in path && '\r' !in path && '\n' !in path
    ensures Parse(url) ==
              if NetlocError(netloc).Some? then Err(NetlocError(netloc).value)
              else Ok(UrlParts(scheme, netloc, path, "", "", ""))
  {
    PlainUrlSteps(url, scheme, netloc, path);
    ParseOfSplits(url, scheme, "//" + netloc + path, netloc, path);
  }

  /** What each step of `urlparse` makes of `scheme://netloc/path`. */
  lemma PlainUrlSteps(url: string, scheme: string, netloc: string, path: string)
    requires url == scheme + "://" + netloc + path
    requires scheme != [] && IsAsciiAlpha(scheme[0]) && AllSchemeChars(scheme) && Lower(scheme) == scheme
    requires '/' !in netloc && '?' !in netloc && '#' !in netloc
    requires path == [] || path[0] == '/'
    requires '?' !in path && '#' !in path && ';' !in path
    requires '\t' !in netloc && '\r' !in netloc && '\n' !in netloc
    requires '\t' !in path && '\r' !in path && '\n' !in path
    ensures RemoveUnsafe(LStripC0(url)) == url
    ensures SplitScheme(url) == (scheme, "//" + netloc + path)
    ensures SplitNetloc("//" + netloc + path) == (netloc, path)
    ensures SplitQueryFragment(path) == (path, "", "")
  {
    CleanUrl(scheme, netloc, path);
    SchemeOfSlashes(scheme, netloc, path);
    NetlocOf(netloc, path);
    NoQueryNoFragment(path);
  }

  /** The scheme of `scheme://rest`, for a lower-case scheme starting with a letter. */
  lemma SchemeOfSlashes(scheme: string, netloc: string, path: string)
    requires scheme != [] && IsAsciiAlpha(scheme[0]) && AllSchemeChars(scheme) && Lower(scheme) == scheme
    ensures SplitScheme(scheme + "://" + netloc + path) == (scheme, "//" + netloc + path)
  {
    SchemeSlashes(scheme, netloc, path);
    SchemeOf(scheme, "//" + netloc + path);
  }

  /** Nothing is stripped or deleted from `scheme://netloc/path`. */
  lemma CleanUrl(scheme: string, netloc: string, path: string)
    requires scheme != [] && IsAsciiAlpha(scheme[0]) && AllSchemeChars(scheme)
    requires '\t' !in netloc && '\r' !in netloc && '\n' !in netloc
    requires '\t' !in path && '\r' !in path && '\n' !in path
    ensures RemoveUnsafe(LStripC0(scheme + "://" + netloc + path)) == scheme + "://" + netloc + path
  {
    var url := scheme + "://" + netloc + path;
    assert LStripC0(url) == url by {
      assert !IsC0OrSpace(url[0]);
    }
    SafeUrl(scheme, netloc, path);
  }

  /** `scheme://netloc/path` is `scheme:` followed by `//netloc/path`. */
  lemma SchemeSlashes(scheme: string, netloc: string, path: string)
    ensures scheme + "://" + netloc + path == scheme + ":" + ("//" + netloc + path)
  {
    assert "://" == ":" + "//";
  }

  /** `urlparse` put together from the results of its steps. */
  lemma ParseOfSplits(url: string, scheme: string, rest: string, netloc: string, path: string)
    requires RemoveUnsafe(LStripC0(url)) == url
    requires SplitScheme(url) == (scheme, rest)
    requires SplitNetloc(rest) == (netloc, path)
    requires SplitQueryFragment(path) == (path, "", "")
    requires ';' !in path
    ensures Parse(url) ==
              if NetlocError(netloc).Some? then Err(NetlocError(netloc).value)
              else Ok(UrlParts(scheme, netloc, path, "", "", ""))
  {
  }

  lemma {:induction false} RemoveUnsafeConcat(a: string, b: string)
    ensures RemoveUnsafe(a + b) == RemoveUnsafe(a) + RemoveUnsafe(b)
  {
    if a == [] {
      assert a + b == b;
    } else {
      var head := if a[0] == '\t' || a[0] == '\r' || a[0] == '\n' then [] else [a[0]];
      assert (a + b)[0] == a[0] && (a + b)[1..] == a[1..] + b;
      assert RemoveUnsafe(a + b) == head + RemoveUnsafe(a[1..] + b);
      RemoveUnsafeConcat(a[1..], b);
      assert RemoveUnsafe(a) == head + RemoveUnsafe(a[1..]);
    }
  }

  lemma SafeUrl(scheme: string, netloc: string, path: string)
    requires AllSchemeChars(scheme)
    requires '\t' !in netloc && '\r' !in netloc && '\n' !in netloc
    requires '\t' !in path && '\r' !in path && '\n' !in path
    ensures RemoveUnsafe(scheme + "://" + netloc + path) == scheme + "://" + netloc + path
  {
    assert forall k :: 0 <= k < |scheme| ==> IsSchemeChar(scheme[k]);
    RemoveUnsafeNoop(scheme);
    RemoveUnsafeNoop("://");
    RemoveUnsafeNoop(netloc);
    RemoveUnsafeNoop(path);
    RemoveUnsafeConcat(scheme, "://");
    RemoveUnsafeConcat(scheme + "://", netloc);
    RemoveUnsafeConcat(scheme + "://" + netloc, path);
  }

  lemma NoQueryNoFragment(path: string)
    requires '?' !in path && '#' !in path
    ensures SplitQueryFragment(path) == (path, "", "")
  {
    assert IndexFrom(path, '#', 0).None? && IndexFrom(path, '?', 0).None?;
  }

  /** Python `s.split(sep)` of a string without `sep` is `[s]`. */
  lemma {:induction false} SplitOnAbsent(s: string, sep: char)
    requires sep !in s
    ensures SplitOn(s, sep) == [s]
  {
    if s != [] {
      SplitOnAbsent(s[1..], sep);
      assert s == [s[0]] + s[1..];
    }
  }

  /**
   * A bracketed host with neither ':' nor '.' that does not start with 'v'
   * is neither an IPv4 nor an IPv6 address: `urlsplit` raises.
   */
  lemma NonIpBracketRefused(netloc: string)
    requires '[' in netloc && ']' in netloc
    requires ':' !in BracketedHost(netloc) && '.' !in BracketedHost(netloc)
    requires BracketedHost(netloc) == [] || BracketedHost(netloc)[0] != 'v'
    ensures NetlocError(netloc) == Some(NotAnIpAddress)
  {
    var h := BracketedHost(netloc);
    SplitOnAbsent(h, '.');
    var pct := IndexFrom(h, '%', 0);
    var addr := if pct.Some? then h[..pct.value] else h;
    assert ':' !in addr by {
      assert forall k :: 0 <= k < |addr| ==> addr[k] == h[k];
    }
    SplitOnAbsent(addr, ':');
  }

  /** The host `[name]tail` puts in brackets is `name`. */
  lemma BracketedHostOf(name: string, tail: string)
    requires ']' !in name
    ensures BracketedHost("[" + name + "]" + tail) == name
  {
    var netloc := "[" + name + "]" + tail;
    var rest := netloc[1..];
    assert netloc[0] == '[';
    assert rest[|name|] == ']';
    assert forall k :: 0 <= k < |name| ==> rest[k] == name[k];
    assert rest[..|name|] == name;
  }

  /** `[name]tail`, with a `name` that is no IP address, makes `urlsplit` raise. */
  lemma BracketedNetlocRefused(name: string, tail: string)
    requires name == [] || name[0] != 'v'
    requires ':' !in name && '.' !in name && ']' !in name
    ensures NetlocError("[" + name + "]" + tail) == Some(NotAnIpAddress)
  {
    BracketedHostOf(name, tail);
    NonIpBracketRefused("[" + name + "]" + tail);
  }

  /**
   * `scheme://[name]tail/path` with a name that has neither ':' nor '.' and
   * does not start with 'v' (such as `http://[x].example.com/p`) is no IP
   * address in brackets: `urlparse` raises, so the URL is never valid,
   * whatever the domain.
   */
  lemma BracketedNameRefused(domain: string, scheme: string, name: string, tail: string, path: string)
    requires scheme != [] && IsAsciiAlpha(scheme[0]) && AllSchemeChars(scheme) && Lower(scheme) == scheme
    requires name == [] || name[0] != 'v'
    requires ':' !in name && '.' !in name && '[' !in name && ']' !in name
    requires '[' !in tail && ']' !in tail
    requires '/' !in name + tail && '?' !in name + tail && '#' !in name + tail
    requires '\t' !in name + tail && '\r' !in name + tail && '\n' !in name + tail
    requires path == [] || path[0] == '/'
    requires '?' !in path && '#' !in path && ';' !in path
    requires '\t' !in path && '\r' !in path && '\n' !in path
    ensures Parse(scheme + "://" + ("[" + name + "]" + tail) + path) == Err(NotAnIpAddress)
    ensures !IsValidUrl(domain, scheme + "://" + ("[" + name + "]" + tail) + path)
  {
    var netloc := "[" + name + "]" + tail;
    BracketedNetlocRefused(name, tail);
    assert '/' !in netloc && '?' !in netloc && '#' !in netloc;
    assert '\t' !in netloc && '\r' !in netloc && '\n' !in netloc;
    assert '\t' !in path && '\r' !in path && '\n' !in path;
    PlainUrlParts(scheme + "://" + netloc + path, scheme, netloc, path);
  }

  /** `host == domain`, a subdomain of it, or a parent domain of it. */
  predicate SameSite(host: string, domain: string)
  {
    host == domain || EndsWith(host, "." + domain) || EndsWith(domain, "." + host)
  }

  /** Python's `$` also matches just before one trailing newline. */
  predicate EndsWithAtEnd(s: string, suffix: string)
  {
    EndsWith(s, suffix) || (s != [] && s[|s| - 1] == '\n' && EndsWith(s[..|s| - 1], suffix))
  }

  const PageExtensions: seq<string> :=
    ["pdf", "jpg", "jpeg", "png", "gif", "zip", "exe", "doc", "docx", "mp4", "mp3", "avi",
     "wmv", "css", "js", "ico"]

  /** `_is_valid_url` also refuses web fonts and SVG. */
  const SitemapExtensions: seq<string> := PageExtensions + ["woff", "woff2", "ttf", "eot", "svg"]

  /** `re.search(r'\.(e1|e2|...)$', s)`. */
  predicate HasExtension(s: string, exts: seq<string>)
  {
    exists k :: 0 <= k < |exts| && EndsWithAtEnd(s, "." + exts[k])
  }

  const UnwantedPaths: seq<string> :=
    ["/admin", "/login", "/wp-admin", "/wp-login", "/dashboard", "/account", "/user", "/profile",
     "/settings", "/config", "/api/", "/ajax/", "/json/", "/xml/", "/search?", "/filter?",
     "/sort?", "/tag/", "/category/", "/author/", "/date/"]

  predicate HasUnwantedSegment(lowerPath: string)
  {
    exists k :: 0 <= k < |UnwantedPaths| && Contains(lowerPath, UnwantedPaths[k])
  }

  /** `SitemapDiscovery._is_valid_url` against the discovery's `domain`. */
  predicate IsValidUrl(domain: string, url: string)
  {
    url != [] &&
    match Parse(url)
    case Err(_) => false
    case Ok(p) =>
      p.scheme != [] && p.netloc != [] && SameSite(p.netloc, domain)
      && !HasExtension(Lower(p.path), SitemapExtensions)
      && !HasUnwantedSegment(Lower(p.path))
  }

  /** The test `_extract_links` applies to one resolved link of a page on `pageHost`. */
  predicate KeepLink(pageHost: string, link: UrlParts, fullUrl: string)
  {
    SameSite(link.netloc, pageHost) && !HasExtension(Lower(fullUrl), PageExtensions)
  }

  lemma {:induction false} ContainsChar(s: string, p: string, c: char)
    requires Contains(s, p) && c in p
    ensures c in s
  {
    var i := ContainsWitness(s, p);
    var j :| 0 <= j < |p| && p[j] == c;
    assert s[i..i + |p|][j] == s[i + j];
  }

  lemma LowerKeepsQuestionMarkOut(s: string)
    requires '?' !in s
    ensures '?' !in Lower(s)
  {
  }

  lemma QueryEntryNeverMatches(path: string, entry: string)
    requires '?' !in path && '?' in entry
    ensures !Contains(Lower(path), entry)
  {
    LowerKeepsQuestionMarkOut(path);
    if Contains(Lower(path), entry) {
      ContainsChar(Lower(path), entry, '?');
    }
  }

  lemma QueryEntriesMissPath(path: string)
    requires '?' !in path
    ensures !Contains(Lower(path), "/search?")
    ensures !Contains(Lower(path), "/filter?")
    ensures !Contains(Lower(path), "/sort?")
  {
    assert "/search?"[7] == '?' && "/filter?"[7] == '?' && "/sort?"[5] == '?';
    QueryEntryNeverMatches(path, "/search?");
    QueryEntryNeverMatches(path, "/filter?");
    QueryEntryNeverMatches(path, "/sort?");
  }

  /**
   * The denylist entries '/search?', '/filter?' and '/sort?' can never
   * match: only the path is tested, and `urlparse` puts everything from the
   * first '?' into the query.
   */
  lemma QueryEntriesNeverMatch(url: string)
    requires Parse(url).Ok?
    ensures UnwantedPaths[14] == "/search?" && UnwantedPaths[15] == "/filter?" && UnwantedPaths[16] == "/sort?"
    ensures !Contains(Lower(Parse(url).value.path), "/search?")
    ensures !Contains(Lower(Parse(url).value.path), "/filter?")
    ensures !Contains(Lower(Parse(url).value.path), "/sort?")
  {
    QueryEntriesMissPath(Parse(url).value.path);
  }

  /** A URL `_is_valid_url` accepts has a scheme and a host on the same site as `domain`. */
  lemma ValidUrlIsSameSite(domain: string, url: string)
    requires IsValidUrl(domain, url)
    ensures url != [] && Parse(url).Ok?
    ensures Parse(url).value.scheme != [] && Parse(url).value.netloc != []
    ensures SameSite(Parse(url).value.netloc, domain)
  {
  }

  /** The empty URL and a URL on an unrelated host are refused. */
  lemma RefusedUrls(domain: string, url: string)
    ensures !IsValidUrl(domain, "")
    ensures Parse(url).Ok? && !SameSite(Parse(url).value.netloc, domain) ==> !IsValidUrl(domain, url)
    ensures Parse(url).Ok? && Parse(url).value.scheme == [] ==> !IsValidUrl(domain, url)
  {
  }

  /** A path containing a denylisted segment is refused. */
  lemma DenylistedPathRefused(domain: string, url: string, k: nat)
    requires Parse(url).Ok? && k < |UnwantedPaths|
    requires Contains(Lower(Parse(url).value.path), UnwantedPaths[k])
    ensures !IsValidUrl(domain, url)
  {
  }

  /** A path ending, in any capitalisation, in a listed extension is refused. */
  lemma ExtensionRefused(domain: string, url: string, k: nat)
    requires Parse(url).Ok? && k < |SitemapExtensions|
    requires EndsWith(Lower(Parse(url).value.path), "." + SitemapExtensions[k])
    ensures !IsValidUrl(domain, url)
  {
  }
}
