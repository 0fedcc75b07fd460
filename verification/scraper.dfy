/**
 * URL discovery and the item check of backend/scraper.py: text
 * normalisation, the availability probe, the official-site search for a
 * management unit (UG), the collection of transparency links from a page
 * (with resolution of relative hrefs) and the keyword rule of `verificar_item`.
 */
module Scraper {
  import opened Base
  import opened Html
  import opened SearchCache

  // ---------------------------------------------------------------------
  // normalize
  // ---------------------------------------------------------------------

  /** `normalize(text)` for a string: transliterate, strip, lower-case. */
  function Normalize(s: string): (r: string)
    ensures |r| <= |Unidecode(s)|
  {
    Lower(Strip(Unidecode(s)))
  }

  lemma {:induction false} UnidecodeOfFolded(s: string)
    requires forall i :: 0 <= i < |s| ==> Folded(s[i])
    ensures Unidecode(s) == s
  {
    if s != [] {
      UnidecodeOfFolded(s[1..]);
    }
  }

  /** A normalized string holds no upper-case ASCII letter and nothing unidecode would change. */
  lemma NormalizeFolded(s: string)
    ensures forall i :: 0 <= i < |Normalize(s)| ==> Folded(Normalize(s)[i]) && !('A' <= Normalize(s)[i] <= 'Z')
  {
    var u := Unidecode(s);
    var k := StripShape(u);
    var t := Strip(u);
    forall i | 0 <= i < |t| ensures Folded(t[i]) {
      assert t[i] == u[k + i];
    }
  }

  lemma LowerOfLower(s: string)
    ensures Lower(Lower(s)) == Lower(s)
  {
  }

  lemma LowerCharSpace(c: char)
    ensures IsSpace(LowerChar(c)) == IsSpace(c)
  {
  }

  /** Lower-casing keeps a string stripped. */
  lemma LowerKeepsStripped(t: string)
    requires t == [] || (!IsSpace(t[0]) && !IsSpace(t[|t| - 1]))
    ensures Strip(Lower(t)) == Lower(t)
  {
    var n := Lower(t);
    if n != [] {
      LowerCharSpace(t[0]);
      LowerCharSpace(t[|t| - 1]);
      assert !IsSpace(n[0]) && !IsSpace(n[|n| - 1]);
      assert LStrip(n) == n;
      assert RStrip(n) == n;
    }
  }

  /** Normalising twice is normalising once. */
  lemma NormalizeIdempotent(s: string)
    ensures Normalize(Normalize(s)) == Normalize(s)
  {
    var t := Strip(Unidecode(s));
    var n := Normalize(s);
    assert n == Lower(t);
    var _ := StripShape(Unidecode(s));
    NormalizeFolded(s);
    UnidecodeOfFolded(n);
    LowerKeepsStripped(t);
    LowerOfLower(t);
    calc {
      Normalize(n);
      Lower(Strip(Unidecode(n)));
      Lower(Strip(n));
      Lower(n);
      n;
    }
  }

  // ---------------------------------------------------------------------
  // verificar_disponibilidade_simples
  // ---------------------------------------------------------------------

  /** `verificar_disponibilidade_simples(url)`: a non-empty URL whose GET answers exactly 200. */
  predicate IsAvailable(net: Net, url: string) {
    url != "" && net.get(url).Response? && net.get(url).status == 200
  }

  // ---------------------------------------------------------------------
  // verifica_site_ug
  // ---------------------------------------------------------------------

  /** How Python renders an optional argument inside an f-string. */
  function Render(o: Option<string>): string {
    if o.Some? then o.value else "None"
  }

  /** The four addresses tried directly for a UG, in order. */
  function DirectDomains(ug: string): (ds: seq<string>)
    ensures |ds| == 4
  {
    ["https://www." + ug + ".am.gov.br", "https://" + ug + ".am.gov.br",
     "https://www.prefeitura" + ug + ".am.gov.br", "https://prefeitura" + ug + ".am.gov.br"]
  }

  /** A HEAD request that does not raise and answers below 400. */
  predicate HeadOk(net: Net, url: string) {
    net.head(url).Response? && net.head(url).status < 400
  }

  /** The first address in `ds` whose HEAD request succeeds. */
  function FirstHeadOk(net: Net, ds: seq<string>): (r: Option<string>)
    ensures r.Some? ==> HeadOk(net, r.value)
    ensures r.Some? ==> exists k :: 0 <= k < |ds| && ds[k] == r.value && forall j :: 0 <= j < k ==> !HeadOk(net, ds[j])
    ensures r.None? <==> forall j :: 0 <= j < |ds| ==> !HeadOk(net, ds[j])
  {
    if ds == [] then None
    else if HeadOk(net, ds[0]) then Some(ds[0])
    else
      var r := FirstHeadOk(net, ds[1..]);
      if r.Some? then
        var k :| 0 <= k < |ds[1..]| && ds[1..][k] == r.value && forall j :: 0 <= j < k ==> !HeadOk(net, ds[1..][j]);
        FirstShift(ds, k, (u: string) => HeadOk(net, u));
        r
      else
        assert forall j :: 0 < j < |ds| ==> ds[j] == ds[1..][j - 1];
        r
  }

  /** One character of an expected-domain pattern, matched case-insensitively; `.` is any character but a newline. */
  predicate PatternCharMatches(p: char, c: char) {
    if p == '.' then c != '\n' else LowerChar(p) == LowerChar(c)
  }

  predicate PatternMatchesAt(url: string, pattern: string, i: nat) {
    i + |pattern| <= |url| && forall k :: 0 <= k < |pattern| ==> PatternCharMatches(pattern[k], url[i + k])
  }

  /** `re.search(pattern, url, re.IGNORECASE)` for a pattern whose only metacharacter is `.`. */
  predicate PatternSearch(url: string, pattern: string) {
    exists i: nat :: i <= |url| && PatternMatchesAt(url, pattern, i)
  }

  /** The first URL of the list that matches the pattern. */
  function FirstMatching(urls: seq<string>, pattern: string): (r: Option<string>)
    ensures r.Some? ==> PatternSearch(r.value, pattern)
    ensures r.Some? ==> exists k :: 0 <= k < |urls| && urls[k] == r.value && forall j :: 0 <= j < k ==> !PatternSearch(urls[j], pattern)
    ensures r.None? <==> forall j :: 0 <= j < |urls| ==> !PatternSearch(urls[j], pattern)
  {
    if urls == [] then None
    else if PatternSearch(urls[0], pattern) then Some(urls[0])
    else
      var r := FirstMatching(urls[1..], pattern);
      if r.Some? then
        var k :| 0 <= k < |urls[1..]| && urls[1..][k] == r.value && forall j :: 0 <= j < k ==> !PatternSearch(urls[1..][j], pattern);
        FirstShift(urls, k, (u: string) => PatternSearch(u, pattern));
        r
      else
        assert forall j :: 0 < j < |urls| ==> urls[j] == urls[1..][j - 1];
        r
  }

  /** The result of `verifica_site_ug`: the `ValueError` for missing arguments, or the verdict. */
  datatype SiteUgResult = MissingArguments | Found(url: string) | NotFound(visited: seq<string>)

  datatype SiteUgOutcome = SiteUgOutcome(result: SiteUgResult, entries: map<string, Entry>)

  /** `url` is the first of `urls` that matches the pattern. */
  predicate FirstHit(urls: seq<string>, pattern: string, url: string) {
    PatternSearch(url, pattern) &&
    exists k :: 0 <= k < |urls| && urls[k] == url && forall j :: 0 <= j < k ==> !PatternSearch(urls[j], pattern)
  }

  /** The query searched: the one given, else "<ug> AM site oficial". */
  function SiteUgQuery(query: Option<string>, ug: Option<string>): string {
    if query.Some? then query.value else Render(ug) + " AM site oficial"
  }

  /** The expected-domain pattern: the one given, else "<ug>.am.gov.br". */
  function SiteUgPattern(expected: Option<string>, ug: Option<string>): string {
    if expected.Some? then expected.value else Render(ug) + ".am.gov.br"
  }

  /**
   * `verifica_site_ug(query, dominio_esperado, n, ug)` with the search cache in state `entries`:
   * the first direct address that answers wins and no search is made; otherwise
   * the first search result matching the pattern, or every result visited.
   */
  function SiteUgSpec(entries: map<string, Entry>, query: Option<string>, expected: Option<string>, n: nat,
                      ug: Option<string>, now: int, net: Net, engines: Engines): (o: SiteUgOutcome)
    ensures o.result == MissingArguments <==> ug.None? && query.None?
    ensures o.result == MissingArguments ==> o.entries == entries
    ensures !(ug.None? && query.None?) && FirstHeadOk(net, DirectDomains(Render(ug))).Some? ==>
      o == SiteUgOutcome(Found(FirstHeadOk(net, DirectDomains(Render(ug))).value), entries)
    ensures !(ug.None? && query.None?) && FirstHeadOk(net, DirectDomains(Render(ug))).None? ==>
      var results := SearchOutcome(entries, SiteUgQuery(query, ug), n, now, engines).results;
      var pattern := SiteUgPattern(expected, ug);
      o.entries == SearchOutcome(entries, SiteUgQuery(query, ug), n, now, engines).entries &&
      (o.result.Found? ==> FirstHit(results, pattern, o.result.url)) &&
      (o.result.NotFound? ==> o.result.visited == results && forall j :: 0 <= j < |results| ==> !PatternSearch(results[j], pattern)) &&
      !o.result.MissingArguments?
  {
    if ug.None? && query.None? then SiteUgOutcome(MissingArguments, entries)
    else
      var q := SiteUgQuery(query, ug);
      var pattern := SiteUgPattern(expected, ug);
      var direct := FirstHeadOk(net, DirectDomains(Render(ug)));
      if direct.Some? then SiteUgOutcome(Found(direct.value), entries)
      else
        var search := SearchOutcome(entries, q, n, now, engines);
        var hit := FirstMatching(search.results, pattern);
        SiteUgOutcome(if hit.Some? then Found(hit.value) else NotFound(search.results), search.entries)
  }

  /** The loop over the direct addresses: the first that answers a HEAD request below 400. */
  method ProbeDirect(net: Net, domains: seq<string>) returns (r: Option<string>)
    ensures r == FirstHeadOk(net, domains)
  {
    var i := 0;
    while i < |domains|
      invariant 0 <= i <= |domains|
      invariant FirstHeadOk(net, domains) == FirstHeadOk(net, domains[i..])
    {
      assert domains[i..][1..] == domains[i + 1..];
      if HeadOk(net, domains[i]) {
        return Some(domains[i]);
      }
      i := i + 1;
    }
    return None;
  }

  /** The loop over the search results: the first that matches the expected domain, else every URL visited. */
  method ScanResults(urls: seq<string>, pattern: string) returns (r: SiteUgResult)
    ensures r == (var hit := FirstMatching(urls, pattern); if hit.Some? then Found(hit.value) else NotFound(urls))
  {
    var visited := [];
    var j := 0;
    while j < |urls|
      invariant 0 <= j <= |urls| && visited == urls[..j]
      invariant FirstMatching(urls, pattern) == FirstMatching(urls[j..], pattern)
    {
      assert urls[j..][1..] == urls[j + 1..];
      visited := visited + [urls[j]];
      if PatternSearch(urls[j], pattern) {
        return Found(urls[j]);
      }
      j := j + 1;
    }
    assert visited == urls;
    return NotFound(visited);
  }

  /** `verifica_site_ug`: the direct addresses first, then the tiered search. */
  method VerificaSiteUg(cache: Cache, query: Option<string>, expected: Option<string>, n: nat,
                        ug: Option<string>, now: int, net: Net, engines: Engines) returns (r: SiteUgResult)
    modifies cache
    ensures SiteUgOutcome(r, cache.entries) == SiteUgSpec(old(cache.entries), query, expected, n, ug, now, net, engines)
  {
    if ug.None? && query.None? {
      return MissingArguments;
    }
    var q := SiteUgQuery(query, ug);
    var pattern := SiteUgPattern(expected, ug);
    var direct := ProbeDirect(net, DirectDomains(Render(ug)));
    if direct.Some? {
      return Found(direct.value);
    }
    var urls := cache.Search(q, n, now, engines);
    r := ScanResults(urls, pattern);
  }

  // ---------------------------------------------------------------------
  // find_transparency_links
  // ---------------------------------------------------------------------

  /** The keywords a transparency link is recognised by. */
  const TransparencyKeywords: seq<string> := [
    "portal da transparencia", "portal da transparência", "acesso a informacao",
    "acesso à informação", "transparencia", "transparência"]

  /** Some keyword occurs in the normalized anchor text or the normalized href. */
  predicate KeywordHit(text: string, href: string) {
    exists k :: 0 <= k < |TransparencyKeywords| &&
      (Contains(Normalize(text), TransparencyKeywords[k]) || Contains(Normalize(href), TransparencyKeywords[k]))
  }

  /** A needle holding a character unidecode never produces does not occur in `Folded` text. */
  lemma FoldedMiss(s: string, t: string, k: nat)
    requires forall i :: 0 <= i < |s| ==> Folded(s[i])
    requires k < |t| && !Folded(t[k])
    ensures !Contains(s, t)
  {
    ContainsMissingChar(s, t, k);
  }

  /** "transparencia" lies inside "portal da transparencia". */
  lemma PortalKeywordImplies(s: string)
    requires Contains(s, "portal da transparencia")
    ensures Contains(s, "transparencia")
  {
    var p := "portal da transparencia";
    assert p[10..23] == "transparencia";
    assert OccursAt(p, "transparencia", 10);
    ContainsIffOccurs(p, "transparencia");
    ContainsTrans(s, p, "transparencia");
  }

  /** Keyword hits in one normalized string decide on two keywords only. */
  lemma NormalizedKeywordHit(s: string)
    requires forall i :: 0 <= i < |s| ==> Folded(s[i])
    ensures (exists k :: 0 <= k < |TransparencyKeywords| && Contains(s, TransparencyKeywords[k])) <==>
      Contains(s, "transparencia") || Contains(s, "acesso a informacao")
  {
    forall k | 0 <= k < |TransparencyKeywords| && Contains(s, TransparencyKeywords[k])
      ensures Contains(s, "transparencia") || Contains(s, "acesso a informacao")
    {
      KeywordInNormalized(s, k);
    }
    if Contains(s, "transparencia") {
      assert Contains(s, TransparencyKeywords[4]);
    } else if Contains(s, "acesso a informacao") {
      assert Contains(s, TransparencyKeywords[2]);
    }
  }

  /** A keyword found in normalized text means one of the two unaccented ones is there. */
  lemma KeywordInNormalized(s: string, k: nat)
    requires forall i :: 0 <= i < |s| ==> Folded(s[i])
    requires k < |TransparencyKeywords| && Contains(s, TransparencyKeywords[k])
    ensures Contains(s, "transparencia") || Contains(s, "acesso a informacao")
  {
    AccentedKeywords();
    if k == 0 {
      PortalKeywordImplies(s);
    } else if k == 1 {
      FoldedMiss(s, TransparencyKeywords[1], 18);
    } else if k == 3 {
      FoldedMiss(s, TransparencyKeywords[3], 7);
    } else if k == 5 {
      FoldedMiss(s, TransparencyKeywords[5], 8);
    }
  }

  /** Each accented keyword holds a letter unidecode never leaves behind. */
  lemma AccentedKeywords()
    ensures |TransparencyKeywords| == 6
    ensures 18 < |TransparencyKeywords[1]| && !Folded(TransparencyKeywords[1][18])
    ensures 7 < |TransparencyKeywords[3]| && !Folded(TransparencyKeywords[3][7])
    ensures 8 < |TransparencyKeywords[5]| && !Folded(TransparencyKeywords[5][8])
  {
  }

  /** Only two keywords decide: the accented ones cannot occur in normalized text, and "transparencia" is inside the first one. */
  lemma KeywordHitSimplified(text: string, href: string)
    ensures KeywordHit(text, href) <==>
      Contains(Normalize(text), "transparencia") || Contains(Normalize(href), "transparencia") ||
      Contains(Normalize(text), "acesso a informacao") || Contains(Normalize(href), "acesso a informacao")
  {
    NormalizeFolded(text);
    NormalizeFolded(href);
    NormalizedKeywordHit(Normalize(text));
    NormalizedKeywordHit(Normalize(href));
  }

  /** Length of the longest prefix of `s` free of `/`. */
  function HostLength(s: string): (n: nat)
    ensures n <= |s| && (n < |s| ==> s[n] == '/')
    ensures forall k :: 0 <= k < n ==> s[k] != '/'
  {
    if s == [] || s[0] == '/' then 0 else 1 + HostLength(s[1..])
  }

  /** `re.match(r'(https?://[^/]+)', url)`: the scheme and the host, when the host is non-empty. */
  function Root(url: string): (r: Option<string>)
    ensures r.Some? ==> IsPrefix(r.value, url) && HasScheme(r.value)
  {
    var p := if IsPrefix("https://", url) then 8 else if IsPrefix("http://", url) then 7 else 0;
    if p == 0 || HostLength(url[p..]) == 0 then None
    else
      var r := url[..p + HostLength(url[p..])];
      assert r[..p] == url[..p];
      Some(r)
  }

  /** An anchor `find_transparency_links` keeps: it has an href and a keyword. */
  predicate IsHit(a: Anchor) {
    a.href.Some? && KeywordHit(a.text, a.href.value)
  }

  /** How one href found on the page at `base` becomes an absolute link. */
  function Resolve(base: string, href: string): string {
    if HasScheme(href) then href
    else if IsPrefix("/", href) then
      (var root := Root(base); if root.Some? then root.value + href else href)
    else RStripChar(base, '/') + "/" + href
  }

  /** Stripping trailing slashes never eats into a prefix that does not end in one. */
  lemma {:induction false} RStripKeepsPrefix(s: string, p: string)
    requires IsPrefix(p, s) && p != [] && p[|p| - 1] != '/'
    ensures IsPrefix(p, RStripChar(s, '/'))
    decreases |s|
  {
    if |s| > 0 && s[|s| - 1] == '/' {
      assert |s| > |p|;
      assert s[..|s| - 1][..|p|] == s[..|p|];
      RStripKeepsPrefix(s[..|s| - 1], p);
    }
  }

  lemma PrefixOfConcat(p: string, s: string, t: string)
    requires IsPrefix(p, s)
    ensures IsPrefix(p, s + t)
  {
    assert (s + t)[..|p|] == s[..|p|];
  }

  /** Resolved against a base with a scheme and a non-empty host, every link is absolute. */
  lemma ResolveIsAbsolute(base: string, href: string)
    requires Root(base).Some?
    ensures HasScheme(Resolve(base, href))
  {
    var root := Root(base).value;
    if HasScheme(href) {
    } else if IsPrefix("/", href) {
      if IsPrefix("https://", root) { PrefixOfConcat("https://", root, href); } else { PrefixOfConcat("http://", root, href); }
    } else {
      var p := if IsPrefix("https://", base) then 8 else 7;
      var host := base[..p + 1];
      assert base[p..][0] != '/';
      assert host[p] != '/';
      RStripKeepsPrefix(base, host);
      var stripped := RStripChar(base, '/');
      assert stripped[..p] == host[..p] == base[..p];
      if p == 8 {
        assert IsPrefix("https://", stripped);
        PrefixOfConcat("https://", stripped, "/" + href);
        assert stripped + "/" + href == stripped + ("/" + href);
      } else {
        assert IsPrefix("http://", stripped);
        PrefixOfConcat("http://", stripped, "/" + href);
        assert stripped + "/" + href == stripped + ("/" + href);
      }
    }
  }

  /** One entry of the result: the anchor's text and its resolved address. */
  datatype Link = Link(text: string, url: string)

  /** The transparency links among `anchors` found on the page at `base`, in page order. */
  function LinksIn(base: string, anchors: seq<Anchor>): (links: seq<Link>)
    ensures |links| <= |anchors|
  {
    if anchors == [] then []
    else
      var a := anchors[|anchors| - 1];
      LinksIn(base, anchors[..|anchors| - 1]) +
        (if IsHit(a) then [Link(Strip(a.text), Resolve(base, a.href.value))] else [])
  }

  /** `url` with `https://` put in front when it has no scheme. */
  function WithScheme(url: string): (r: string)
    ensures HasScheme(r)
    ensures HasScheme(url) ==> r == url
  {
    if HasScheme(url) then url else
      var r := "https://" + url;
      assert r[..8] == "https://";
      r
  }

  /** `find_transparency_links(url)` as a value: empty when the page cannot be fetched. */
  function TransparencyLinks(net: Net, url: string): seq<Link> {
    var base := WithScheme(url);
    var resp := net.get(base);
    if Ok(resp) then LinksIn(base, resp.page.anchors) else []
  }

  /** Every link found is an anchor of the page with a keyword and an href, resolved against the page address. */
  lemma {:induction false} LinksInSound(base: string, anchors: seq<Anchor>, k: nat)
    requires k < |LinksIn(base, anchors)|
    ensures exists j :: (0 <= j < |anchors| && IsHit(anchors[j])
      && LinksIn(base, anchors)[k] == Link(Strip(anchors[j].text), Resolve(base, anchors[j].href.value)))
  {
    var init := anchors[..|anchors| - 1];
    if k < |LinksIn(base, init)| {
      LinksInSound(base, init, k);
      var j :| 0 <= j < |init| && IsHit(init[j])
        && LinksIn(base, init)[k] == Link(Strip(init[j].text), Resolve(base, init[j].href.value));
      assert anchors[j] == init[j];
    }
  }

  /** The links are in one-to-one correspondence with the kept anchors: one link per kept anchor, in page order. */
  lemma {:induction false} LinksInCount(base: string, anchors: seq<Anchor>)
    ensures |LinksIn(base, anchors)| == |set j | 0 <= j < |anchors| && IsHit(anchors[j])|
  {
    if anchors != [] {
      var n := |anchors| - 1;
      var init := anchors[..n];
      LinksInCount(base, init);
      var hits := set j | 0 <= j < |anchors| && IsHit(anchors[j]);
      var initHits := set j | 0 <= j < n && IsHit(init[j]);
      forall j | 0 <= j < n ensures IsHit(init[j]) == IsHit(anchors[j]) {
        assert init[j] == anchors[j];
      }
      if IsHit(anchors[n]) {
        forall j ensures j in hits <==> j in initHits + {n} {
          if j in hits && j != n { assert 0 <= j < n; }
        }
        assert hits == initHits + {n};
      } else {
        forall j ensures j in hits <==> j in initHits {
          if j in hits { assert j != n; }
        }
        assert hits == initHits;
      }
    }
  }

  /** The keyword loop of `find_transparency_links`, left at the first keyword found. */
  method HasKeyword(text: string, href: string) returns (hit: bool)
    ensures hit == KeywordHit(text, href)
  {
    var tn, hn := Normalize(text), Normalize(href);
    var k := 0;
    while k < |TransparencyKeywords|
      invariant 0 <= k <= |TransparencyKeywords|
      invariant forall m :: 0 <= m < k ==> !Contains(tn, TransparencyKeywords[m]) && !Contains(hn, TransparencyKeywords[m])
    {
      if Contains(tn, TransparencyKeywords[k]) || Contains(hn, TransparencyKeywords[k]) {
        return true;
      }
      k := k + 1;
    }
    return false;
  }

  /** `find_transparency_links(url)`: fetch the page and collect the matching anchors one by one. */
  method FindTransparencyLinks(net: Net, url: string) returns (matches: seq<Link>)
    ensures matches == TransparencyLinks(net, url)
    ensures forall k :: 0 <= k < |matches| ==> Root(WithScheme(url)).Some? ==> HasScheme(matches[k].url)
  {
    var base := WithScheme(url);
    var resp := net.get(base);
    if !Ok(resp) {
      return [];
    }
    var anchors := resp.page.anchors;
    matches := [];
    var i := 0;
    while i < |anchors|
      invariant 0 <= i <= |anchors|
      invariant matches == LinksIn(base, anchors[..i])
    {
      var a := anchors[i];
      assert anchors[..i + 1][..i] == anchors[..i];
      if a.href.Some? {
        var hit := HasKeyword(a.text, a.href.value);
        if hit {
          matches := matches + [Link(Strip(a.text), Resolve(base, a.href.value))];
        }
      }
      i := i + 1;
    }
    assert anchors[..|anchors|] == anchors;
    forall k | 0 <= k < |matches| && Root(base).Some? ensures HasScheme(matches[k].url) {
      LinksInSound(base, anchors, k);
      var j :| 0 <= j < |anchors| && IsHit(anchors[j])
        && matches[k] == Link(Strip(anchors[j].text), Resolve(base, anchors[j].href.value));
      ResolveIsAbsolute(base, anchors[j].href.value);
    }
  }

  // ---------------------------------------------------------------------
  // verificar_item
  // ---------------------------------------------------------------------

  /** The words of the normalized question longer than three characters, in order, repeats kept. */
  function QuestionKeywords(question: string): (kws: seq<string>)
    ensures forall k :: 0 <= k < |kws| ==> |kws[k]| > 3
  {
    LongWords(Words(Normalize(question)))
  }

  function LongWords(ws: seq<string>): (r: seq<string>)
    ensures |r| <= |ws|
    ensures forall k :: 0 <= k < |r| ==> |r[k]| > 3
    ensures forall k :: 0 <= k < |ws| && |ws[k]| > 3 ==> ws[k] in r
  {
    if ws == [] then [] else (if |ws[0]| > 3 then [ws[0]] else []) + LongWords(ws[1..])
  }

  /** How many entries of `kws` occur in `text` (repeats counted). */
  function CountPresent(kws: seq<string>, text: string): (n: nat)
    ensures n <= |kws|
    ensures n == |kws| <==> forall k :: 0 <= k < |kws| ==> Contains(text, kws[k])
    ensures n == 0 <==> forall k :: 0 <= k < |kws| ==> !Contains(text, kws[k])
  {
    if kws == [] then 0 else (if Contains(text, kws[0]) then 1 else 0) + CountPresent(kws[1..], text)
  }

  /** At least half of the keywords (as `matches >= len(keywords) * 0.5`). */
  predicate HalfPresent(kws: seq<string>, text: string) {
    2 * CountPresent(kws, text) >= |kws|
  }

  /** `verificar_item(url, pergunta)` of the scraper. */
  function VerificarItem(net: Net, url: string, question: string): (r: bool)
    ensures r ==> IsAvailable(net, url)
    ensures IsAvailable(net, url) && Contains(Lower(question), "sítio oficial") ==> r
    ensures IsAvailable(net, url) && !Contains(Lower(question), "sítio oficial") && Contains(Lower(question), "portal da transparência") ==>
      (r <==> |TransparencyLinks(net, url)| > 0)
  {
    if !IsAvailable(net, url) then false
    else if Contains(Lower(question), "sítio oficial") then true
    else if Contains(Lower(question), "portal da transparência") then |TransparencyLinks(net, url)| > 0
    else
      var resp := net.get(url);
      resp.Response? && HalfPresent(QuestionKeywords(question), Normalize(resp.page.text))
  }

  /** For other questions the verdict is exactly the fifty-percent rule on the page text. */
  lemma VerificarItemKeywordRule(net: Net, url: string, question: string)
    requires IsAvailable(net, url)
    requires !Contains(Lower(question), "sítio oficial") && !Contains(Lower(question), "portal da transparência")
    ensures VerificarItem(net, url, question) <==>
      2 * CountPresent(QuestionKeywords(question), Normalize(net.get(url).page.text)) >= |QuestionKeywords(question)|
  {
  }
}
