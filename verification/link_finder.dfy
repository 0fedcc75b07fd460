/**
 * backend/link_finder.py: find a body's link by asking the link database
 * first and a web search second, checking every candidate, and remembering
 * a link found on the web in the database.
 *
 * The database is three tables held as sequences (a row's id is its
 * position); the browser is an oracle giving, per search engine, the
 * `href` of each result or a failure.
 */
module LinkFinder {
  import opened Base
  import opened Html

  // ---------------------------------------------------------------------
  // verificar_link
  // ---------------------------------------------------------------------

  /** `verificar_link(url)`: HEAD below 400; GET below 400 only when HEAD raised; false when both raise. */
  predicate VerificarLink(net: Net, url: string) {
    var h := net.head(url);
    if h.Response? then h.status < 400
    else
      var g := net.get(url);
      g.Response? && g.status < 400
  }

  /** The GET request matters only when HEAD raises; when both raise the link is dead. */
  lemma VerificarLinkHeadFirst(net: Net, other: Net, url: string)
    requires net.head(url) == other.head(url)
    ensures net.head(url).Response? ==> (VerificarLink(net, url) <==> VerificarLink(other, url))
    ensures net.head(url).Response? ==> (VerificarLink(net, url) <==> net.head(url).status < 400)
    ensures net.head(url).Raised? && net.get(url).Raised? ==> !VerificarLink(net, url)
  {
  }

  // ---------------------------------------------------------------------
  // The link database
  // ---------------------------------------------------------------------

  datatype OrgaoRow = OrgaoRow(nome: string, uf: string, tipoId: int)
  datatype LinkRow = LinkRow(orgaoId: nat, tipoId: nat, url: string, ativo: bool, ultimaVerificacao: string)

  /** The three tables: link types by name, bodies, and links. */
  datatype Db = Db(tipos: seq<string>, orgaos: seq<OrgaoRow>, links: seq<LinkRow>)

  /** SQLite's `LIKE` ignores the case of ASCII letters only. */
  function LikeFold(s: string): (r: string)
    ensures |r| == |s|
  {
    seq(|s|, i requires 0 <= i < |s| => if 'A' <= s[i] <= 'Z' then (s[i] as int + 32) as char else s[i])
  }

  /**
   * SQL `LIKE` without an escape character: `%` matches any run of
   * characters, `_` any one character, and every other character itself.
   */
  predicate LikeMatch(s: string, p: string)
    decreases |s| + |p|
  {
    if p == [] then s == []
    else if p[0] == '%' then LikeMatch(s, p[1..]) || (s != [] && LikeMatch(s[1..], p))
    else s != [] && (p[0] == '_' || p[0] == s[0]) && LikeMatch(s[1..], p[1..])
  }

  /** `nome LIKE '%pattern%'`, the pattern's own `%` and `_` acting as wildcards. */
  predicate Like(nome: string, pattern: string) {
    LikeMatch(LikeFold(nome), "%" + LikeFold(pattern) + "%")
  }

  /** A pattern without wildcards. */
  predicate Literal(q: string) {
    forall i :: 0 <= i < |q| ==> q[i] != '%' && q[i] != '_'
  }

  /** A trailing `%` matches anything. */
  lemma {:induction false} MatchAny(s: string)
    ensures LikeMatch(s, "%")
    decreases |s|
  {
    if s != [] {
      MatchAny(s[1..]);
    }
    assert "%"[1..] == [];
  }

  /** A literal followed by `%` matches exactly the strings it starts. */
  lemma {:induction false} MatchLiteralPrefix(s: string, q: string)
    requires Literal(q)
    ensures LikeMatch(s, q + "%") <==> IsPrefix(q, s)
    decreases |q|
  {
    if q == [] {
      assert q + "%" == "%";
      MatchAny(s);
    } else {
      assert (q + "%")[1..] == q[1..] + "%";
      MatchLiteralPrefix(if s == [] then s else s[1..], q[1..]);
      if s != [] && IsPrefix(q[1..], s[1..]) && q[0] == s[0] {
        assert s[..|q|] == [s[0]] + s[1..][..|q| - 1];
      }
      if IsPrefix(q, s) {
        assert s[1..][..|q| - 1] == s[..|q|][1..];
      }
    }
  }

  /** `LIKE '%q%'` on a literal `q` is Python's `q in s`. */
  lemma {:induction false} MatchLiteralInside(s: string, q: string)
    requires Literal(q)
    ensures LikeMatch(s, "%" + q + "%") <==> Contains(s, q)
    decreases |s|
  {
    var p := "%" + q + "%";
    assert p[1..] == q + "%";
    MatchLiteralPrefix(s, q);
    if s != [] {
      MatchLiteralInside(s[1..], q);
    }
  }

  /** For a name free of `%` and `_`, the query is a case-insensitive (ASCII) substring test. */
  lemma LikeLiteral(nome: string, pattern: string)
    requires Literal(pattern)
    ensures Like(nome, pattern) <==> Contains(LikeFold(nome), LikeFold(pattern))
  {
    assert Literal(LikeFold(pattern));
    MatchLiteralInside(LikeFold(nome), LikeFold(pattern));
  }

  /** A pattern followed by `%` matches the very text it is made of, wildcards included. */
  lemma {:induction false} MatchSelf(s: string)
    ensures LikeMatch(s, s + "%")
    decreases |s|
  {
    var p := s + "%";
    if s == [] {
      assert p == "%";
      MatchAny(s);
    } else {
      MatchSelf(s[1..]);
      assert p[1..] == s[1..] + "%";
      if s[0] == '%' {
        assert LikeMatch(s[1..], p);
      }
    }
  }

  /** A wildcard in the name can match what it does not literally contain: "a_c" finds "abc". */
  lemma UnderscoreIsWildcard()
    ensures Like("abc", "a_c") && !Contains(LikeFold("abc"), LikeFold("a_c"))
  {
    assert LikeFold("abc") == "abc";
    assert LikeFold("a_c") == "a_c";
    assert ("%" + "a_c" + "%")[1..] == "a_c%";
    assert "a_c%"[1..] == "_c%";
    assert "_c%"[1..] == "c%";
    assert "c%"[1..] == "%";
    MatchAny([]);
    assert !Contains("abc", "a_c") by {
      assert "abc"[..3][1] != "a_c"[1];
      assert "abc"[1..] == "bc";
      assert !IsPrefix("a_c", "bc");
      assert "bc"[1..] == "c";
      assert "c"[1..] == "";
    }
  }

  /** The first link type with this name. */
  function FirstTipo(tipos: seq<string>, nome: string): (k: Option<nat>)
    ensures k.Some? ==> k.value < |tipos| && tipos[k.value] == nome
    ensures forall j :: 0 <= j < |tipos| && (k.None? || j < k.value) ==> tipos[j] != nome
  {
    if tipos == [] then None
    else if tipos[0] == nome then Some(0)
    else
      match FirstTipo(tipos[1..], nome)
      case None => None
      case Some(j) => Some(j + 1)
  }

  /** The first body whose name contains `nome`, as `LIKE` compares. */
  function FirstOrgao(orgaos: seq<OrgaoRow>, nome: string): (k: Option<nat>)
    ensures k.Some? ==> k.value < |orgaos| && Like(orgaos[k.value].nome, nome)
    ensures forall j :: 0 <= j < |orgaos| && (k.None? || j < k.value) ==> !Like(orgaos[j].nome, nome)
  {
    if orgaos == [] then None
    else if Like(orgaos[0].nome, nome) then Some(0)
    else
      match FirstOrgao(orgaos[1..], nome)
      case None => None
      case Some(j) => Some(j + 1)
  }

  predicate LinkOf(l: LinkRow, orgao: nat, tipo: nat, activeOnly: bool) {
    l.orgaoId == orgao && l.tipoId == tipo && (!activeOnly || l.ativo)
  }

  /** The first link of this body and type (only among active ones when `activeOnly`). */
  function FirstLink(links: seq<LinkRow>, orgao: nat, tipo: nat, activeOnly: bool): (k: Option<nat>)
    ensures k.Some? ==> k.value < |links| && LinkOf(links[k.value], orgao, tipo, activeOnly)
    ensures forall j :: 0 <= j < |links| && (k.None? || j < k.value) ==> !LinkOf(links[j], orgao, tipo, activeOnly)
  {
    if links == [] then None
    else if LinkOf(links[0], orgao, tipo, activeOnly) then Some(0)
    else
      match FirstLink(links[1..], orgao, tipo, activeOnly)
      case None => None
      case Some(j) => Some(j + 1)
  }

  /**
   * `buscar_no_banco(nome_orgao, tipo_link)`: the type by name, the first
   * body whose name contains `nome_orgao`, and that body's first active link
   * of the type.
   */
  function BuscarNoBanco(db: Db, nome: string, tipo: string): (r: Option<string>)
    ensures tipo !in db.tipos ==> r.None?
    ensures (forall j :: 0 <= j < |db.orgaos| ==> !Like(db.orgaos[j].nome, nome)) ==> r.None?
    ensures r.Some? ==> exists k :: 0 <= k < |db.links| && db.links[k].ativo && db.links[k].url == r.value
  {
    match FirstTipo(db.tipos, tipo)
    case None => None
    case Some(t) =>
      match FirstOrgao(db.orgaos, nome)
      case None => None
      case Some(o) =>
        match FirstLink(db.links, o, t, true)
        case None => None
        case Some(k) => Some(db.links[k].url)
  }

  /** The id the type gets when saving: the existing one, else the next free one. */
  function TipoId(db: Db, tipo: string): nat {
    match FirstTipo(db.tipos, tipo)
    case Some(t) => t
    case None => |db.tipos|
  }

  /** The id the body gets when saving: the first that matches, else the next free one. */
  function OrgaoId(db: Db, nome: string): nat {
    match FirstOrgao(db.orgaos, nome)
    case Some(o) => o
    case None => |db.orgaos|
  }

  /** The tables after the type and the body exist. */
  function WithKeys(db: Db, nome: string, tipo: string): Db {
    var tipos := if FirstTipo(db.tipos, tipo).Some? then db.tipos else db.tipos + [tipo];
    var orgaos := if FirstOrgao(db.orgaos, nome).Some? then db.orgaos else db.orgaos + [OrgaoRow(nome, "AM", 1)];
    Db(tipos, orgaos, db.links)
  }

  /**
   * `salvar_link_no_banco(nome_orgao, tipo_link, url)`: create the type and
   * the body when missing, then update the first link of that body and type
   * (active or not), or add one.
   */
  function Salvar(db: Db, nome: string, tipo: string, url: string, today: string): Db {
    var keyed := WithKeys(db, nome, tipo);
    var o := OrgaoId(db, nome);
    var t := TipoId(db, tipo);
    match FirstLink(db.links, o, t, false)
    case Some(k) => keyed.(links := db.links[k := db.links[k].(url := url, ativo := true, ultimaVerificacao := today)])
    case None => keyed.(links := db.links + [LinkRow(o, t, url, true, today)])
  }

  /** The save is an upsert: one link is replaced and made active, or exactly one active link is added; no other link changes. */
  lemma SalvarUpsert(db: Db, nome: string, tipo: string, url: string, today: string)
    ensures var after := Salvar(db, nome, tipo, url, today);
      var o := OrgaoId(db, nome);
      var t := TipoId(db, tipo);
      (exists k :: 0 <= k < |db.links| && LinkOf(db.links[k], o, t, false)) ==>
        |after.links| == |db.links| &&
        exists k :: 0 <= k < |db.links| && after.links[k] == LinkRow(o, t, url, true, today) &&
          forall j :: 0 <= j < |db.links| && j != k ==> after.links[j] == db.links[j]
    ensures var after := Salvar(db, nome, tipo, url, today);
      var o := OrgaoId(db, nome);
      var t := TipoId(db, tipo);
      (forall k :: 0 <= k < |db.links| ==> !LinkOf(db.links[k], o, t, false)) ==>
        after.links == db.links + [LinkRow(o, t, url, true, today)]
  {
    var o := OrgaoId(db, nome);
    var t := TipoId(db, tipo);
    var f := FirstLink(db.links, o, t, false);
    if f.Some? {
      var k := f.value;
      assert db.links[k].orgaoId == o && db.links[k].tipoId == t;
      assert Salvar(db, nome, tipo, url, today).links[k] == LinkRow(o, t, url, true, today);
    }
  }

  /** A name matches itself, whatever the letter case and whatever wildcards it holds. */
  lemma LikeSelf(nome: string)
    ensures Like(nome, nome)
  {
    var f := LikeFold(nome);
    MatchSelf(f);
    assert ("%" + f + "%")[1..] == f + "%";
  }

  /** After saving a link, looking it up by the same name and type finds it. */
  lemma SalvarThenBuscar(db: Db, nome: string, tipo: string, url: string, today: string)
    ensures BuscarNoBanco(Salvar(db, nome, tipo, url, today), nome, tipo) == Some(url)
  {
    var after := Salvar(db, nome, tipo, url, today);
    var o := OrgaoId(db, nome);
    var t := TipoId(db, tipo);
    assert FirstTipo(after.tipos, tipo) == Some(t) by {
      if FirstTipo(db.tipos, tipo).None? {
        assert after.tipos[|db.tipos|] == tipo;
      }
    }
    assert FirstOrgao(after.orgaos, nome) == Some(o) by {
      if FirstOrgao(db.orgaos, nome).None? {
        LikeSelf(nome);
        assert after.orgaos[|db.orgaos|].nome == nome;
      }
    }
    var f := FirstLink(db.links, o, t, false);
    if f.Some? {
      var k := f.value;
      assert LinkOf(after.links[k], o, t, true);
      forall j | 0 <= j < k ensures !LinkOf(after.links[j], o, t, true) {
        assert after.links[j] == db.links[j];
      }
      var fl := FirstLink(after.links, o, t, true);
      assert fl == Some(k);
    } else {
      var k := |db.links|;
      assert LinkOf(after.links[k], o, t, true);
      forall j | 0 <= j < k ensures !LinkOf(after.links[j], o, t, true) {
        assert after.links[j] == db.links[j];
      }
      var fl := FirstLink(after.links, o, t, true);
      assert fl == Some(k);
    }
  }

  // ---------------------------------------------------------------------
  // buscar_no_google
  // ---------------------------------------------------------------------

  /** One engine's answer: an exception, or the `href` of each result (`None` when it has none or reading it raised). */
  datatype Fetch = Failed | Hits(hrefs: seq<Option<string>>)

  /** The browser: DuckDuckGo and Bing, each answering a query. */
  datatype Browser = Browser(duckDuckGo: string -> Fetch, bing: string -> Fetch)

  /** The five transparency-portal patterns, searched case-insensitively anywhere in the URL. */
  predicate PortalPattern(url: string) {
    var u := Lower(url);
    ContainsThen(u, "transparencia.", ".gov.br") || ContainsThen(u, "transparente.", ".gov.br") ||
    ContainsThen(u, "transparencia.", ".leg.br") || ContainsThen(u, "portal", "transparencia") ||
    ContainsThen(u, "transparencia.", ".org.br")
  }

  /** A result is kept when it has an address outside the engine's own domain that fits the kind of search. */
  predicate Accepted(href: Option<string>, engineDomain: string, tipoBusca: string) {
    Truthy(href) && !Contains(href.value, engineDomain) &&
    if tipoBusca == "portal transparência" then PortalPattern(href.value)
    else Contains(href.value, ".gov.br") || Contains(href.value, ".leg.br")
  }

  /** The kept addresses, in result order. */
  function Filter(hrefs: seq<Option<string>>, engineDomain: string, tipoBusca: string): (urls: seq<string>)
    ensures |urls| <= |hrefs|
    ensures forall u :: u in urls ==> exists i :: 0 <= i < |hrefs| && hrefs[i] == Some(u) && Accepted(hrefs[i], engineDomain, tipoBusca)
    ensures forall i :: 0 <= i < |hrefs| && Accepted(hrefs[i], engineDomain, tipoBusca) ==> hrefs[i].value in urls
  {
    if hrefs == [] then []
    else
      var last := hrefs[|hrefs| - 1];
      var prev := Filter(hrefs[..|hrefs| - 1], engineDomain, tipoBusca);
      if Accepted(last, engineDomain, tipoBusca) then prev + [last.value] else prev
  }

  /** The filter keeps results in their order: filtering a concatenation concatenates the filtered parts. */
  lemma {:induction false} FilterConcat(a: seq<Option<string>>, b: seq<Option<string>>, engineDomain: string, tipoBusca: string)
    ensures Filter(a + b, engineDomain, tipoBusca) == Filter(a, engineDomain, tipoBusca) + Filter(b, engineDomain, tipoBusca)
    decreases |b|
  {
    if b != [] {
      var init := b[..|b| - 1];
      FilterConcat(a, init, engineDomain, tipoBusca);
      assert (a + b)[..|a + b| - 1] == a + init;
      assert (a + b)[|a + b| - 1] == b[|b| - 1];
    } else {
      assert a + b == a;
    }
  }

  /** One result is kept, as its address, exactly when it passes the filter. */
  lemma FilterOne(h: Option<string>, engineDomain: string, tipoBusca: string)
    ensures Filter([h], engineDomain, tipoBusca) == if Accepted(h, engineDomain, tipoBusca) then [h.value] else []
  {
    assert [h][..0] == [];
  }

  /**
   * `r` lists first occurrences in `urls`, in their order: `idx[k]` is where
   * `r[k]` first occurs, and the positions increase.
   */
  predicate FirstOccurrences(urls: seq<string>, r: seq<string>, idx: seq<int>) {
    |idx| == |r| &&
    (forall k :: 0 <= k < |idx| ==> 0 <= idx[k] < |urls| && r[k] == urls[idx[k]] && urls[idx[k]] !in urls[..idx[k]]) &&
    (forall k, l :: 0 <= k < l < |idx| ==> idx[k] < idx[l])
  }

  /** `list(dict.fromkeys(urls))`: the first occurrence of each address, in order. */
  function Dedup(urls: seq<string>): (r: seq<string>)
    ensures |r| <= |urls|
    ensures forall u :: u in r <==> u in urls
  {
    if urls == [] then []
    else
      var prev := Dedup(urls[..|urls| - 1]);
      var last := urls[|urls| - 1];
      assert urls == urls[..|urls| - 1] + [last];
      if last in prev then prev else prev + [last]
  }

  predicate NoDuplicates(s: seq<string>) {
    forall i, j :: 0 <= i < j < |s| ==> s[i] != s[j]
  }

  /** The deduplicated list holds the first occurrence of each address, in the order of the original list. */
  lemma {:induction false} DedupOrder(urls: seq<string>)
    ensures exists idx :: FirstOccurrences(urls, Dedup(urls), idx)
  {
    if urls == [] {
      assert Dedup(urls) == [];
      assert FirstOccurrences(urls, Dedup(urls), []);
    } else {
      var n := |urls| - 1;
      var init := urls[..n];
      var last := urls[n];
      assert urls == init + [last];
      DedupOrder(init);
      var prev :| FirstOccurrences(init, Dedup(init), prev);
      if last in Dedup(init) {
        OccurrencesExtend(init, Dedup(init), prev, last);
        assert FirstOccurrences(urls, Dedup(urls), prev);
      } else {
        assert last !in init;
        OccurrencesAppend(init, Dedup(init), prev, last);
        assert Dedup(urls) == Dedup(init) + [last];
        assert FirstOccurrences(urls, Dedup(urls), prev + [n]);
      }
    }
  }

  /** Appending an address keeps every first occurrence of the list where it was. */
  lemma OccurrencesExtend(init: seq<string>, r: seq<string>, idx: seq<int>, x: string)
    requires FirstOccurrences(init, r, idx)
    ensures FirstOccurrences(init + [x], r, idx)
  {
    var urls := init + [x];
    forall k | 0 <= k < |idx| ensures r[k] == urls[idx[k]] && urls[idx[k]] !in urls[..idx[k]] {
      assert urls[..idx[k]] == init[..idx[k]];
    }
  }

  /** Appending a new address adds its first occurrence at the end. */
  lemma OccurrencesAppend(init: seq<string>, r: seq<string>, idx: seq<int>, x: string)
    requires FirstOccurrences(init, r, idx) && x !in init
    ensures FirstOccurrences(init + [x], r + [x], idx + [|init|])
  {
    OccurrencesExtend(init, r, idx, x);
    assert (init + [x])[..|init|] == init;
  }

  /** The deduplicated list has no repeats, and a list without repeats is left as it is. */
  lemma {:induction false} DedupDistinct(urls: seq<string>)
    ensures NoDuplicates(Dedup(urls))
    ensures NoDuplicates(urls) ==> Dedup(urls) == urls
  {
    if urls != [] {
      var init := urls[..|urls| - 1];
      DedupDistinct(init);
      if NoDuplicates(urls) {
        assert NoDuplicates(init);
        assert urls[|urls| - 1] !in init;
        assert urls == init + [urls[|urls| - 1]];
      }
    }
  }

  /** The first five results of one engine, filtered. */
  function EngineUrls(hrefs: seq<Option<string>>, engineDomain: string, tipoBusca: string): seq<string> {
    Filter(Take(hrefs, 5), engineDomain, tipoBusca)
  }

  /**
   * `buscar_no_google(nome_orgao, tipo_busca)`: DuckDuckGo's kept results, or
   * Bing's when DuckDuckGo kept none; an engine failure ends the search with
   * what was kept so far.
   */
  function SearchWeb(browser: Browser, nome: string, tipoBusca: string): (urls: seq<string>)
    ensures |urls| <= 5
    ensures NoDuplicates(urls)
    ensures browser.duckDuckGo(nome + " " + tipoBusca).Failed? ==> urls == []
  {
    var query := nome + " " + tipoBusca;
    match browser.duckDuckGo(query)
    case Failed => []
    case Hits(h) =>
      var first := EngineUrls(h, "duckduckgo.com", tipoBusca);
      DedupDistinct(first);
      if first != [] then Dedup(first)
      else
        match browser.bing(query)
        case Failed => []
        case Hits(h2) =>
          var second := EngineUrls(h2, "bing.com", tipoBusca);
          DedupDistinct(second);
          Dedup(second)
  }

  /**
   * The addresses found are those the consulted engine kept among its first
   * five results, each once, at its first occurrence and in the engine's order.
   */
  lemma SearchWebOrder(browser: Browser, nome: string, tipoBusca: string)
    ensures var query := nome + " " + tipoBusca;
      var d := browser.duckDuckGo(query);
      d.Hits? && EngineUrls(d.hrefs, "duckduckgo.com", tipoBusca) != [] ==>
        var kept := EngineUrls(d.hrefs, "duckduckgo.com", tipoBusca);
        (forall u :: u in SearchWeb(browser, nome, tipoBusca) <==> u in kept) &&
        exists idx :: FirstOccurrences(kept, SearchWeb(browser, nome, tipoBusca), idx)
    ensures var query := nome + " " + tipoBusca;
      var d := browser.duckDuckGo(query);
      var b := browser.bing(query);
      d.Hits? && EngineUrls(d.hrefs, "duckduckgo.com", tipoBusca) == [] && b.Hits? ==>
        var kept := EngineUrls(b.hrefs, "bing.com", tipoBusca);
        (forall u :: u in SearchWeb(browser, nome, tipoBusca) <==> u in kept) &&
        exists idx :: FirstOccurrences(kept, SearchWeb(browser, nome, tipoBusca), idx)
    ensures var query := nome + " " + tipoBusca;
      var d := browser.duckDuckGo(query);
      d.Hits? && EngineUrls(d.hrefs, "duckduckgo.com", tipoBusca) == [] && browser.bing(query).Failed? ==>
        SearchWeb(browser, nome, tipoBusca) == []
  {
    var query := nome + " " + tipoBusca;
    var d := browser.duckDuckGo(query);
    if d.Hits? {
      var first := EngineUrls(d.hrefs, "duckduckgo.com", tipoBusca);
      if first != [] {
        DedupOrder(first);
      } else if browser.bing(query).Hits? {
        DedupOrder(EngineUrls(browser.bing(query).hrefs, "bing.com", tipoBusca));
      }
    }
  }

  /** Bing is consulted only when DuckDuckGo kept nothing. */
  lemma BingOnlyAsFallback(b1: Browser, b2: Browser, nome: string, tipoBusca: string)
    requires b1.duckDuckGo == b2.duckDuckGo
    requires var f := b1.duckDuckGo(nome + " " + tipoBusca); f.Failed? || EngineUrls(f.hrefs, "duckduckgo.com", tipoBusca) != []
    ensures SearchWeb(b1, nome, tipoBusca) == SearchWeb(b2, nome, tipoBusca)
  {
  }

  /** Every address found was among the first five results of an engine and passed its filter. */
  lemma SearchWebSound(browser: Browser, nome: string, tipoBusca: string, u: string)
    requires u in SearchWeb(browser, nome, tipoBusca)
    ensures var query := nome + " " + tipoBusca;
      (browser.duckDuckGo(query).Hits? && u in EngineUrls(browser.duckDuckGo(query).hrefs, "duckduckgo.com", tipoBusca)) ||
      (browser.bing(query).Hits? && u in EngineUrls(browser.bing(query).hrefs, "bing.com", tipoBusca))
  {
  }

  // ---------------------------------------------------------------------
  // buscar_link
  // ---------------------------------------------------------------------

  /** A rejected or extra candidate: its address, where it came from and whether it answered. */
  datatype Alternative = Alternative(url: string, fonte: string, status: string)

  /** The `resultado` dictionary. */
  datatype LinkResult = LinkResult(orgao: string, tipo: string, url: Option<string>, fonte: Option<string>,
                                   status: string, alternativas: seq<Alternative>)

  /** A web candidate recorded as an alternative. */
  function Tag(net: Net, u: string): Alternative {
    Alternative(u, "busca_web", if VerificarLink(net, u) then "Link ativo" else "Link inativo")
  }

  function Tagged(net: Net, urls: seq<string>): (alts: seq<Alternative>)
    ensures |alts| == |urls|
  {
    if urls == [] then [] else [Tag(net, urls[0])] + Tagged(net, urls[1..])
  }

  /** The first candidate that answers. */
  function FirstLive(net: Net, urls: seq<string>): (k: Option<nat>)
    ensures k.Some? ==> k.value < |urls| && VerificarLink(net, urls[k.value])
    ensures forall j :: 0 <= j < |urls| && (k.None? || j < k.value) ==> !VerificarLink(net, urls[j])
  {
    if urls == [] then None
    else if VerificarLink(net, urls[0]) then Some(0)
    else
      match FirstLive(net, urls[1..])
      case None => None
      case Some(j) => Some(j + 1)
  }

  /** The loop over the web candidates, one candidate at a time. */
  function WebPass(net: Net, urls: seq<string>, r: LinkResult): LinkResult
    decreases |urls|
  {
    if urls == [] then r
    else
      var u := urls[0];
      var next :=
        if VerificarLink(net, u) then
          if r.url.None? then r.(url := Some(u), fonte := Some("busca_web"), status := "Encontrado")
          else r.(alternativas := r.alternativas + [Alternative(u, "busca_web", "Link ativo")])
        else r.(alternativas := r.alternativas + [Alternative(u, "busca_web", "Link inativo")]);
      WebPass(net, urls[1..], next)
  }

  /** Once a main link is set, every further candidate becomes an alternative, in order. */
  lemma {:induction false} WebPassAfterFound(net: Net, urls: seq<string>, r: LinkResult)
    requires r.url.Some?
    ensures WebPass(net, urls, r) == r.(alternativas := r.alternativas + Tagged(net, urls))
    decreases |urls|
  {
    if urls != [] {
      var next := r.(alternativas := r.alternativas + [Tag(net, urls[0])]);
      WebPassAfterFound(net, urls[1..], next);
      assert r.alternativas + [Tag(net, urls[0])] + Tagged(net, urls[1..]) == r.alternativas + Tagged(net, urls);
    }
  }

  /** Without a main link and with no candidate answering, every candidate is an inactive alternative. */
  lemma {:induction false} WebPassNoneLive(net: Net, urls: seq<string>, r: LinkResult)
    requires r.url.None?
    requires forall j :: 0 <= j < |urls| ==> !VerificarLink(net, urls[j])
    ensures WebPass(net, urls, r) == r.(alternativas := r.alternativas + Tagged(net, urls))
    decreases |urls|
  {
    if urls != [] {
      var next := r.(alternativas := r.alternativas + [Tag(net, urls[0])]);
      WebPassNoneLive(net, urls[1..], next);
      assert r.alternativas + [Tag(net, urls[0])] + Tagged(net, urls[1..]) == r.alternativas + Tagged(net, urls);
    }
  }

  /** Tagging the first `k` candidates tags the first one, then the next `k - 1`. */
  lemma TaggedHead(net: Net, urls: seq<string>, k: nat)
    requires 0 < k <= |urls|
    ensures Tagged(net, urls[..k]) == [Tag(net, urls[0])] + Tagged(net, urls[1..][..k - 1])
  {
    assert urls[..k][1..] == urls[1..][..k - 1];
  }

  /** A first candidate that does not answer becomes an inactive alternative. */
  lemma WebPassSkip(net: Net, urls: seq<string>, r: LinkResult)
    requires 0 < |urls| && !VerificarLink(net, urls[0])
    ensures WebPass(net, urls, r) == WebPass(net, urls[1..], r.(alternativas := r.alternativas + [Tag(net, urls[0])]))
  {
  }

  /** Without a main link, a first candidate that answers becomes it; the rest are alternatives. */
  lemma WebPassLiveHead(net: Net, urls: seq<string>, r: LinkResult)
    requires r.url.None?
    requires 0 < |urls| && VerificarLink(net, urls[0])
    ensures WebPass(net, urls, r) == r.(url := Some(urls[0]), fonte := Some("busca_web"), status := "Encontrado",
                                        alternativas := r.alternativas + Tagged(net, urls[..0]) + Tagged(net, urls[1..]))
  {
    var next := r.(url := Some(urls[0]), fonte := Some("busca_web"), status := "Encontrado");
    WebPassAfterFound(net, urls[1..], next);
    assert urls[..0] == [];
  }

  /** Without a main link, the candidate at `k`, the first that answers, becomes it; the others are alternatives in order. */
  lemma {:induction false} WebPassLive(net: Net, urls: seq<string>, r: LinkResult, k: nat)
    requires r.url.None?
    requires k < |urls| && VerificarLink(net, urls[k])
    requires forall j :: 0 <= j < k ==> !VerificarLink(net, urls[j])
    ensures WebPass(net, urls, r) == r.(url := Some(urls[k]), fonte := Some("busca_web"), status := "Encontrado",
                                        alternativas := r.alternativas + Tagged(net, urls[..k]) + Tagged(net, urls[k + 1..]))
    decreases |urls|
  {
    if k == 0 {
      WebPassLiveHead(net, urls, r);
    } else {
      var u := urls[0];
      var rest := urls[1..];
      var next := r.(alternativas := r.alternativas + [Tag(net, u)]);
      WebPassSkip(net, urls, r);
      WebPassLive(net, rest, next, k - 1);
      assert urls[k + 1..] == rest[k..];
      TaggedHead(net, urls, k);
      assert next.alternativas + Tagged(net, rest[..k - 1]) == r.alternativas + Tagged(net, urls[..k]);
      assert rest[k - 1] == urls[k];
      assert next.alternativas + Tagged(net, rest[..k - 1]) + Tagged(net, rest[k..]) ==
        r.alternativas + Tagged(net, urls[..k]) + Tagged(net, urls[k + 1..]);
    }
  }

  /**
   * Without a main link yet, the first candidate that answers becomes it;
   * every other candidate is an alternative, in encounter order.
   */
  lemma WebPassFirstLive(net: Net, urls: seq<string>, r: LinkResult)
    requires r.url.None?
    ensures var out := WebPass(net, urls, r);
      match FirstLive(net, urls)
      case None => out == r.(alternativas := r.alternativas + Tagged(net, urls))
      case Some(k) => out == r.(url := Some(urls[k]), fonte := Some("busca_web"), status := "Encontrado",
                                alternativas := r.alternativas + Tagged(net, urls[..k]) + Tagged(net, urls[k + 1..]))
  {
    match FirstLive(net, urls)
    case None => WebPassNoneLive(net, urls, r);
    case Some(k) => WebPassLive(net, urls, r, k);
  }

  /** The result before anything is found. */
  function Initial(nome: string, tipoLink: string): LinkResult {
    LinkResult(nome, tipoLink, None, None, "Não encontrado", [])
  }

  /** `buscar_link(nome_orgao, tipo_link, tipo_busca)` as a value: the database link when it answers, else the web pass. */
  function BuscarLinkResult(db: Db, net: Net, browser: Browser, nome: string, tipoLink: string, tipoBusca: string): LinkResult {
    var urlDb := BuscarNoBanco(db, nome, tipoLink);
    if Truthy(urlDb) && VerificarLink(net, urlDb.value) then
      Initial(nome, tipoLink).(url := urlDb, fonte := Some("banco_dados"), status := "Encontrado")
    else
      var start := if Truthy(urlDb) then Initial(nome, tipoLink).(alternativas := [Alternative(urlDb.value, "banco_dados", "Link inativo")])
                   else Initial(nome, tipoLink);
      WebPass(net, SearchWeb(browser, nome, tipoBusca), start)
  }

  /** The result is remembered only when its main link came from the web. */
  predicate Saves(r: LinkResult) {
    Truthy(r.url) && r.fonte == Some("busca_web")
  }

  /** A database link that answers is returned at once: no web search, nothing saved. */
  lemma DatabaseLinkFirst(db: Db, net: Net, browser: Browser, other: Browser, nome: string, tipoLink: string, tipoBusca: string)
    requires var u := BuscarNoBanco(db, nome, tipoLink); Truthy(u) && VerificarLink(net, u.value)
    ensures var r := BuscarLinkResult(db, net, browser, nome, tipoLink, tipoBusca);
      r.url == BuscarNoBanco(db, nome, tipoLink) && r.fonte == Some("banco_dados") && r.status == "Encontrado" &&
      r.alternativas == [] && !Saves(r)
    ensures BuscarLinkResult(db, net, browser, nome, tipoLink, tipoBusca) == BuscarLinkResult(db, net, other, nome, tipoLink, tipoBusca)
  {
  }

  /** A database link that does not answer is the first alternative, marked inactive, and is never the main link. */
  lemma DeadDatabaseLink(db: Db, net: Net, browser: Browser, nome: string, tipoLink: string, tipoBusca: string)
    requires var u := BuscarNoBanco(db, nome, tipoLink); Truthy(u) && !VerificarLink(net, u.value)
    ensures var r := BuscarLinkResult(db, net, browser, nome, tipoLink, tipoBusca);
      |r.alternativas| >= 1 && r.alternativas[0] == Alternative(BuscarNoBanco(db, nome, tipoLink).value, "banco_dados", "Link inativo") &&
      r.fonte != Some("banco_dados")
  {
    var u := BuscarNoBanco(db, nome, tipoLink);
    var start := Initial(nome, tipoLink).(alternativas := [Alternative(u.value, "banco_dados", "Link inativo")]);
    var urls := SearchWeb(browser, nome, tipoBusca);
    WebPassFirstLive(net, urls, start);
  }

  /** When the database has no working link, the main link is the first web candidate that answers. */
  lemma WebMainLink(db: Db, net: Net, browser: Browser, nome: string, tipoLink: string, tipoBusca: string)
    requires var u := BuscarNoBanco(db, nome, tipoLink); !(Truthy(u) && VerificarLink(net, u.value))
    ensures var r := BuscarLinkResult(db, net, browser, nome, tipoLink, tipoBusca);
      var urls := SearchWeb(browser, nome, tipoBusca);
      match FirstLive(net, urls)
      case None => r.url.None? && r.status == "Não encontrado" && !Saves(r)
      case Some(k) => r.url == Some(urls[k]) && r.fonte == Some("busca_web") && r.status == "Encontrado"
  {
    var u := BuscarNoBanco(db, nome, tipoLink);
    var start := if Truthy(u) then Initial(nome, tipoLink).(alternativas := [Alternative(u.value, "banco_dados", "Link inativo")])
                 else Initial(nome, tipoLink);
    WebPassFirstLive(net, SearchWeb(browser, nome, tipoBusca), start);
  }

  // ---------------------------------------------------------------------
  // The finder and its database
  // ---------------------------------------------------------------------

  class Finder {
    var tipos: seq<string>
    var orgaos: seq<OrgaoRow>
    var links: seq<LinkRow>

    constructor(db: Db)
      ensures State() == db
    {
      tipos := db.tipos;
      orgaos := db.orgaos;
      links := db.links;
    }

    /** The database contents. */
    function State(): Db
      reads this
    {
      Db(tipos, orgaos, links)
    }

    /** `salvar_link_no_banco`: add the type and the body when missing, then update or add the link. */
    method SalvarLinkNoBanco(nome: string, tipo: string, url: string, today: string)
      modifies this
      ensures State() == Salvar(old(State()), nome, tipo, url, today)
    {
      ghost var db := State();
      var t: nat;
      var ft := FirstTipo(tipos, tipo);
      if ft.Some? {
        t := ft.value;
      } else {
        t := |tipos|;
        tipos := tipos + [tipo];
      }
      var o: nat;
      var fo := FirstOrgao(orgaos, nome);
      if fo.Some? {
        o := fo.value;
      } else {
        o := |orgaos|;
        orgaos := orgaos + [OrgaoRow(nome, "AM", 1)];
      }
      var existing := FirstLink(links, o, t, false);
      if existing.Some? {
        var k := existing.value;
        links := links[k := links[k].(url := url, ativo := true, ultimaVerificacao := today)];
      } else {
        links := links + [LinkRow(o, t, url, true, today)];
      }
      assert o == OrgaoId(db, nome) && t == TipoId(db, tipo);
    }

    /** `buscar_no_google`: the kept results of one engine, then of the other, then without repeats. */
    method BuscarNoGoogle(nome: string, tipoBusca: string, browser: Browser) returns (urls: seq<string>)
      ensures urls == SearchWeb(browser, nome, tipoBusca)
    {
      var query := nome + " " + tipoBusca;
      var first := browser.duckDuckGo(query);
      if first.Failed? {
        return [];
      }
      urls := KeepResults(first.hrefs, "duckduckgo.com", tipoBusca);
      if urls == [] {
        var second := browser.bing(query);
        if second.Failed? {
          return [];
        }
        urls := KeepResults(second.hrefs, "bing.com", tipoBusca);
      }
      urls := RemoveDuplicates(urls);
    }

    /**
     * `buscar_link`: the database link when it answers; otherwise every web
     * candidate in turn; then remember a link found on the web.
     */
    method BuscarLink(nome: string, tipoLink: string, tipoBusca: string, net: Net, browser: Browser, today: string)
      returns (r: LinkResult)
      modifies this
      ensures r == BuscarLinkResult(old(State()), net, browser, nome, tipoLink, tipoBusca)
      ensures State() == if Saves(r) then Salvar(old(State()), nome, tipoLink, r.url.value, today) else old(State())
    {
      r := Initial(nome, tipoLink);
      var urlDb := BuscarNoBanco(State(), nome, tipoLink);
      if Truthy(urlDb) {
        if VerificarLink(net, urlDb.value) {
          r := r.(url := urlDb, fonte := Some("banco_dados"), status := "Encontrado");
          return;
        }
        r := r.(alternativas := r.alternativas + [Alternative(urlDb.value, "banco_dados", "Link inativo")]);
      }
      ghost var start := if Truthy(urlDb) then Initial(nome, tipoLink).(alternativas := [Alternative(urlDb.value, "banco_dados", "Link inativo")])
                         else Initial(nome, tipoLink);
      assert r == start;
      var urlsWeb := BuscarNoGoogle(nome, tipoBusca, browser);
      assert urlsWeb == SearchWeb(browser, nome, tipoBusca);
      r := CheckCandidates(net, urlsWeb, r);
      assert r == WebPass(net, SearchWeb(browser, nome, tipoBusca), start);
      assert r == BuscarLinkResult(State(), net, browser, nome, tipoLink, tipoBusca);
      if Truthy(r.url) && r.fonte == Some("busca_web") {
        SalvarLinkNoBanco(nome, tipoLink, r.url.value, today);
      }
    }
  }

  /** The loop over the web candidates. */
  method CheckCandidates(net: Net, urls: seq<string>, start: LinkResult) returns (r: LinkResult)
    ensures r == WebPass(net, urls, start)
  {
    r := start;
    var i := 0;
    while i < |urls|
      invariant 0 <= i <= |urls|
      invariant WebPass(net, urls, start) == WebPass(net, urls[i..], r)
    {
      assert urls[i..][1..] == urls[i + 1..];
      var u := urls[i];
      if VerificarLink(net, u) {
        if r.url.None? {
          r := r.(url := Some(u), fonte := Some("busca_web"), status := "Encontrado");
        } else {
          r := r.(alternativas := r.alternativas + [Alternative(u, "busca_web", "Link ativo")]);
        }
      } else {
        r := r.(alternativas := r.alternativas + [Alternative(u, "busca_web", "Link inativo")]);
      }
      i := i + 1;
    }
  }

  /** The loop over the first five results of one engine, keeping those that pass. */
  method KeepResults(hrefs: seq<Option<string>>, engineDomain: string, tipoBusca: string) returns (urls: seq<string>)
    ensures urls == EngineUrls(hrefs, engineDomain, tipoBusca)
  {
    var results := Take(hrefs, 5);
    urls := [];
    for i := 0 to |results|
      invariant urls == Filter(results[..i], engineDomain, tipoBusca)
    {
      assert results[..i + 1][..i] == results[..i];
      if Accepted(results[i], engineDomain, tipoBusca) {
        urls := urls + [results[i].value];
      }
    }
    assert results[..|results|] == results;
  }

  /** The loop keeping the first occurrence of each address. */
  method RemoveDuplicates(urls: seq<string>) returns (r: seq<string>)
    ensures r == Dedup(urls)
  {
    r := [];
    for i := 0 to |urls|
      invariant r == Dedup(urls[..i])
    {
      assert urls[..i + 1][..i] == urls[..i];
      if urls[i] !in r {
        r := r + [urls[i]];
      }
    }
    assert urls[..|urls|] == urls;
  }
}
