/**
 * backend/verificador_novo.py: a browser-driven evaluation that scores pages
 * of a body's site by the keywords of each question, tries the site's own
 * search box, and explores a few internal links when the score stays low.
 * The browser is an oracle: what Google lists for a query, the page shown
 * for a URL, and what the site's search box leads to. The anchors of a page
 * the browser shows carry the `href` Selenium's `get_attribute("href")`
 * reports, which is already resolved against the page address.
 */
module VerificadorNovo {
  import opened Base
  import opened Html

  /** Asking the browser for a URL: an exception, or the page shown; `readable` is false when its source cannot be read for scoring. */
  datatype Visit = Crashed | Loaded(page: Page, readable: bool)

  /** The site's search box: no field accepted the terms, or the URL and page of the results. */
  datatype Busca = NoField | Searched(currentUrl: string, page: Page, readable: bool)

  /**
   * The browser. The terms typed into the search box are two keywords of
   * the question's set, in an order the program leaves open, so the
   * outcome is given per URL and keyword set.
   */
  datatype Browser = Browser(
    google: string -> seq<Option<string>>,
    visit: string -> Visit,
    internalSearch: (string, set<string>) -> Busca)

  // ---------------------------------------------------------------------
  // Keywords
  // ---------------------------------------------------------------------

  const Padrao: set<string> := {"site", "oficial", "institucional"}
  const GrupoPortal: set<string> := {"transparência", "portal", "acesso", "informação"}
  const GrupoEstrutura: set<string> := {"organograma", "estrutura", "organizacional", "hierarquia"}
  const GrupoCompetencias: set<string> := {"atribuições", "funções", "competências", "responsabilidades"}
  const GrupoGestao: set<string> := {"prefeito", "secretários", "gestores", "diretores", "governador"}
  const GrupoContato: set<string> := {"contato", "fale conosco", "telefone", "endereço", "email"}
  const GrupoLicitacoes: set<string> := {"licitação", "edital", "pregão", "concorrência", "compras"}

  predicate AboutPortal(pergunta: string) {
    Contains(Lower(pergunta), "portal") && Contains(Lower(pergunta), "transparência")
  }

  predicate AboutEstrutura(pergunta: string) {
    Contains(Lower(pergunta), "estrutura") && Contains(Lower(pergunta), "organizacional")
  }

  predicate AboutCompetencias(pergunta: string) {
    Contains(Lower(pergunta), "competências") || Contains(Lower(pergunta), "atribuições")
  }

  predicate AboutGestao(pergunta: string) {
    Contains(Lower(pergunta), "responsáveis") || Contains(Lower(pergunta), "gestão")
  }

  predicate AboutContato(pergunta: string) {
    Contains(Lower(pergunta), "endereços") || Contains(Lower(pergunta), "telefones")
  }

  predicate AboutLicitacoes(pergunta: string) {
    Contains(Lower(pergunta), "licitações")
  }

  /** `extrair_palavras_chave(pergunta)`: the default words plus each group whose condition holds, without repetitions. */
  function PalavrasChave(pergunta: string): (ks: set<string>)
    ensures Padrao <= ks && |ks| >= 3
  {
    var ks := Padrao
      + (if AboutPortal(pergunta) then GrupoPortal else {})
      + (if AboutEstrutura(pergunta) then GrupoEstrutura else {})
      + (if AboutCompetencias(pergunta) then GrupoCompetencias else {})
      + (if AboutGestao(pergunta) then GrupoGestao else {})
      + (if AboutContato(pergunta) then GrupoContato else {})
      + (if AboutLicitacoes(pergunta) then GrupoLicitacoes else {});
    assert Padrao <= ks;
    assert |Padrao| == 3;
    SubsetCard(Padrao, ks);
    ks
  }

  /** A subset is no larger than its superset. */
  lemma {:induction false} SubsetCard<T>(a: set<T>, b: set<T>)
    requires a <= b
    ensures |a| <= |b|
    decreases |a|
  {
    if a != {} {
      var x :| x in a;
      SubsetCard(a - {x}, b - {x});
    }
  }

  /** Each group has a word that no other group and no default word has. */
  lemma PortalWitness()
    ensures "portal" !in Padrao + GrupoEstrutura + GrupoCompetencias + GrupoGestao + GrupoContato + GrupoLicitacoes
  {
  }

  lemma EstruturaWitness()
    ensures "organograma" !in Padrao + GrupoPortal + GrupoCompetencias + GrupoGestao + GrupoContato + GrupoLicitacoes
  {
  }

  lemma CompetenciasWitness()
    ensures "funções" !in Padrao + GrupoPortal + GrupoEstrutura + GrupoGestao + GrupoContato + GrupoLicitacoes
  {
  }

  lemma GestaoWitness()
    ensures "prefeito" !in Padrao + GrupoPortal + GrupoEstrutura + GrupoCompetencias + GrupoContato + GrupoLicitacoes
  {
  }

  lemma ContatoWitness()
    ensures "contato" !in Padrao + GrupoPortal + GrupoEstrutura + GrupoCompetencias + GrupoGestao + GrupoLicitacoes
  {
  }

  lemma LicitacoesWitness()
    ensures "edital" !in Padrao + GrupoPortal + GrupoEstrutura + GrupoCompetencias + GrupoGestao + GrupoContato
  {
  }

  /** The transparency words are there exactly when the question names both the portal and transparency. */
  lemma PortalKeywords(pergunta: string)
    ensures GrupoPortal <= PalavrasChave(pergunta) <==> AboutPortal(pergunta)
  {
    PortalWitness();
  }

  /** The organisation-chart words are there exactly when the question names the organisational structure. */
  lemma EstruturaKeywords(pergunta: string)
    ensures GrupoEstrutura <= PalavrasChave(pergunta) <==> AboutEstrutura(pergunta)
  {
    EstruturaWitness();
  }

  /** The duty words are there exactly when the question names competences or attributions. */
  lemma CompetenciasKeywords(pergunta: string)
    ensures GrupoCompetencias <= PalavrasChave(pergunta) <==> AboutCompetencias(pergunta)
  {
    CompetenciasWitness();
  }

  /** The management words are there exactly when the question names those responsible or the management. */
  lemma GestaoKeywords(pergunta: string)
    ensures GrupoGestao <= PalavrasChave(pergunta) <==> AboutGestao(pergunta)
  {
    GestaoWitness();
  }

  /** The contact words are there exactly when the question names addresses or telephones. */
  lemma ContatoKeywords(pergunta: string)
    ensures GrupoContato <= PalavrasChave(pergunta) <==> AboutContato(pergunta)
  {
    ContatoWitness();
  }

  /** The procurement words are there exactly when the question names tenders. */
  lemma LicitacoesKeywords(pergunta: string)
    ensures GrupoLicitacoes <= PalavrasChave(pergunta) <==> AboutLicitacoes(pergunta)
  {
    LicitacoesWitness();
  }

  // ---------------------------------------------------------------------
  // Scoring a page
  // ---------------------------------------------------------------------

  /** The word occurs, lower-cased, in one of the (already lower-cased) texts. */
  predicate InAny(texts: seq<string>, w: string) {
    exists i :: 0 <= i < |texts| && Contains(texts[i], Lower(w))
  }

  /** The keywords that occur in one of the texts. */
  function Hits(ks: set<string>, texts: seq<string>): (hs: set<string>)
    ensures hs <= ks
    ensures forall k :: k in hs <==> k in ks && InAny(texts, k)
  {
    set k | k in ks && InAny(texts, k)
  }

  /** Some `h1`-`h3` heading's string contains a keyword, both lower-cased. */
  predicate HeadingHit(ks: set<string>, page: Page) {
    exists i, k :: 0 <= i < |page.headings| && page.headings[i].Some? && k in ks
      && Contains(Lower(page.headings[i].value), Lower(k))
  }

  /**
   * The heading test hands each heading's `.string` to a function that
   * lower-cases it once there is a keyword to compare; a heading without a
   * string then raises `AttributeError`, which the scorer turns into 0.
   */
  predicate HeadingRaises(ks: set<string>, page: Page) {
    ks != {} && exists i :: 0 <= i < |page.headings| && page.headings[i].None?
  }

  /** The share of keywords found in the page text, 0 without keywords. */
  function BaseScore(ks: set<string>, page: Page): (s: real)
    ensures 0.0 <= s <= 1.0
    ensures ks != {} && Hits(ks, [Lower(page.text)]) == ks ==> s == 1.0
    ensures Hits(ks, [Lower(page.text)]) == {} ==> s == 0.0
  {
    var found := Hits(ks, [Lower(page.text)]);
    SubsetCard(found, ks);
    if |ks| > 0 then Ratio(|found|, |ks|) else 0.0
  }

  /** `a / n` for a count out of a positive total. */
  function Ratio(a: nat, n: nat): (r: real)
    requires 0 < n && a <= n
    ensures 0.0 <= r <= 1.0
    ensures r == 1.0 <==> a == n
    ensures r == 0.0 <==> a == 0
  {
    var r := (a as real) / (n as real);
    assert r * (n as real) == a as real;
    assert (1.0 - r) * (n as real) == (n - a) as real;
    FactorSign(r, n as real);
    FactorSign(1.0 - r, n as real);
    r
  }

  /** A factor of a product with a positive factor shares the product's sign. */
  lemma FactorSign(p: real, q: real)
    requires 0.0 < q
    ensures p * q >= 0.0 ==> p >= 0.0
    ensures p * q == 0.0 ==> p == 0.0
  {
  }

  /**
   * `pontuar_pagina_atual(palavras_chave)` on a page: the base share plus the
   * structural bonuses, capped at 1; an unreadable page, or one whose heading
   * test raises, scores 0.
   */
  function Pontuacao(ks: set<string>, page: Page, readable: bool): (s: real)
    ensures 0.0 <= s <= 1.0
    ensures readable && !HeadingRaises(ks, page) ==> s >= BaseScore(ks, page)
    ensures !readable || HeadingRaises(ks, page) ==> s == 0.0
  {
    if !readable || HeadingRaises(ks, page) then 0.0
    else
      var bruto := BaseScore(ks, page)
        + (if page.tables > 0 then 0.1 else 0.0)
        + (if |page.imgAlts| > 0 then 0.05 else 0.0)
        + (if HeadingHit(ks, page) then 0.2 else 0.0);
      if bruto <= 1.0 then bruto else 1.0
  }

  /** A readable page holding every keyword, and no heading without a string, scores the full 1.0. */
  lemma AllKeywordsFullScore(ks: set<string>, page: Page)
    requires ks != {} && Hits(ks, [Lower(page.text)]) == ks
    requires forall i :: 0 <= i < |page.headings| ==> page.headings[i].Some?
    ensures Pontuacao(ks, page, true) == 1.0
  {
  }

  /** One empty or mixed-content heading makes the whole page score 0, whatever keywords it holds. */
  lemma HeadingWithoutStringScoresZero(ks: set<string>, page: Page, i: nat)
    requires ks != {} && i < |page.headings| && page.headings[i].None?
    ensures Pontuacao(ks, page, true) == 0.0
  {
  }

  /** A heading whose text holds a keyword earns no bonus unless that text is the heading's own string. */
  lemma HeadingBonusNeedsString(ks: set<string>, page: Page)
    requires forall i :: 0 <= i < |page.headings| ==> page.headings[i].None?
    ensures !HeadingHit(ks, page)
  {
  }

  /** A readable page without keywords, tables, images or matching headings scores 0. */
  lemma BarePageScoresZero(ks: set<string>, page: Page)
    requires Hits(ks, [Lower(page.text)]) == {} && page.tables == 0 && |page.imgAlts| == 0 && !HeadingHit(ks, page)
    ensures Pontuacao(ks, page, true) == 0.0
  {
  }

  /** Of two pages with the same structure, the one holding more of the keywords scores at least as much. */
  lemma MoreHitsScoreMore(ks: set<string>, p: Page, q: Page)
    requires Hits(ks, [Lower(p.text)]) <= Hits(ks, [Lower(q.text)])
    requires p.tables == q.tables && |p.imgAlts| == |q.imgAlts| && p.headings == q.headings
    ensures Pontuacao(ks, p, true) <= Pontuacao(ks, q, true)
  {
    SubsetCard(Hits(ks, [Lower(p.text)]), Hits(ks, [Lower(q.text)]));
    if |ks| > 0 {
      var a := |Hits(ks, [Lower(p.text)])| as real;
      var b := |Hits(ks, [Lower(q.text)])| as real;
      var n := |ks| as real;
      assert a / n <= b / n by {
        assert a <= b;
        assert n > 0.0;
      }
    }
  }

  /** The keyword loop of the scorer, counting the keywords that occur in one of the texts, in whatever order the set yields them. */
  method CountHits(ks: set<string>, texts: seq<string>) returns (n: nat)
    ensures n == |Hits(ks, texts)|
  {
    n := 0;
    var rest := ks;
    while rest != {}
      invariant rest <= ks
      invariant n == |Hits(ks - rest, texts)|
      decreases |rest|
    {
      var p :| p in rest;
      ghost var done := ks - rest;
      assert ks - (rest - {p}) == done + {p};
      if exists i :: 0 <= i < |texts| && Contains(texts[i], Lower(p)) {
        assert Hits(done + {p}, texts) == Hits(done, texts) + {p};
        n := n + 1;
      } else {
        assert Hits(done + {p}, texts) == Hits(done, texts);
      }
      rest := rest - {p};
    }
    assert ks - rest == ks;
  }

  /** `pontuar_pagina_atual(palavras_chave)`: count the keywords in the text, add the bonuses, cap at 1. */
  method PontuarPaginaAtual(ks: set<string>, page: Page, readable: bool) returns (s: real)
    ensures s == Pontuacao(ks, page, readable)
  {
    if !readable {
      return 0.0;
    }
    var texto := Lower(page.text);
    var total := |ks|;
    var encontradas := CountHits(ks, [texto]);
    if total > 0 {
      s := (encontradas as real) / (total as real);
    } else {
      s := 0.0;
    }
    if page.tables > 0 {
      s := s + 0.1;
    }
    if |page.imgAlts| > 0 {
      s := s + 0.05;
    }
    if HeadingRaises(ks, page) {
      return 0.0;
    }
    if HeadingHit(ks, page) {
      s := s + 0.2;
    }
    if s > 1.0 {
      s := 1.0;
    }
  }

  // ---------------------------------------------------------------------
  // Relevant links
  // ---------------------------------------------------------------------

  /** A relevant link: its `href`, how many keywords it mentions, and its lower-cased text. */
  datatype Link = Link(href: string, relevancia: nat, texto: string)

  /** `"/".join(url.split("/")[:3])`: scheme and host of the base URL. */
  function DominioBase(url: string): string {
    JoinWith(Take(SplitOn(url, '/'), 3), '/')
  }

  function HrefOf(a: Anchor): string {
    if a.href.Some? then a.href.value else ""
  }

  /** A link worth scoring: a real `href` on the host `base` (the base URL's `DominioBase`) or starting with "/". */
  predicate Candidate(base: string, a: Anchor) {
    var h := HrefOf(a);
    Truthy(a.href) && !IsPrefix("javascript:", h) && h != "#" &&
    (IsPrefix(base, h) || IsPrefix("/", h))
  }

  /** How many keywords the link's text or `href` mentions. */
  function Relevance(ks: set<string>, a: Anchor): nat {
    |Hits(ks, [Lower(a.text), Lower(HrefOf(a))])|
  }

  /** A link is relevant exactly when its lower-cased text or `href` contains one of the keywords. */
  lemma RelevanceIff(ks: set<string>, a: Anchor)
    ensures Relevance(ks, a) > 0 <==> exists k :: k in ks && InAny([Lower(a.text), Lower(HrefOf(a))], k)
  {
    var hs := Hits(ks, [Lower(a.text), Lower(HrefOf(a))]);
    if exists k :: k in ks && InAny([Lower(a.text), Lower(HrefOf(a))], k) {
      var k :| k in ks && InAny([Lower(a.text), Lower(HrefOf(a))], k);
      assert k in hs;
    }
  }

  function LinkOf(ks: set<string>, a: Anchor): Link {
    Link(HrefOf(a), Relevance(ks, a), Lower(a.text))
  }

  /** The candidates that mention at least one keyword, in page order. */
  function Relevantes(ks: set<string>, base: string, anchors: seq<Anchor>): seq<Link>
    decreases |anchors|
  {
    if anchors == [] then []
    else
      var a := anchors[0];
      (if Candidate(base, a) && Relevance(ks, a) > 0 then [LinkOf(ks, a)] else []) + Relevantes(ks, base, anchors[1..])
  }

  /** `l` is the link made from one of the candidate anchors. */
  predicate LinkFrom(ks: set<string>, base: string, anchors: seq<Anchor>, l: Link) {
    exists i :: 0 <= i < |anchors| && Candidate(base, anchors[i]) && l == LinkOf(ks, anchors[i])
  }

  /** Every relevant link mentions a keyword and is made from a candidate anchor. */
  lemma {:induction false} RelevantesSound(ks: set<string>, base: string, anchors: seq<Anchor>)
    ensures forall l :: l in Relevantes(ks, base, anchors) ==> l.relevancia > 0 && LinkFrom(ks, base, anchors, l)
    decreases |anchors|
  {
    if anchors != [] {
      RelevantesSound(ks, base, anchors[1..]);
      var a := anchors[0];
      var head := if Candidate(base, a) && Relevance(ks, a) > 0 then [LinkOf(ks, a)] else [];
      var rest := Relevantes(ks, base, anchors[1..]);
      assert Relevantes(ks, base, anchors) == head + rest;
      forall l: Link | l in head + rest ensures l.relevancia > 0 && LinkFrom(ks, base, anchors, l) {
        if l in head {
          assert l == LinkOf(ks, anchors[0]);
        } else {
          assert LinkFrom(ks, base, anchors[1..], l);
          var i :| 0 <= i < |anchors[1..]| && Candidate(base, anchors[1..][i]) && l == LinkOf(ks, anchors[1..][i]);
          assert anchors[1..][i] == anchors[i + 1];
        }
      }
    }
  }

  /** Every candidate anchor that mentions a keyword gives a relevant link. */
  lemma {:induction false} RelevantesComplete(ks: set<string>, base: string, anchors: seq<Anchor>)
    ensures forall i :: 0 <= i < |anchors| && Candidate(base, anchors[i]) && Relevance(ks, anchors[i]) > 0 ==>
      LinkOf(ks, anchors[i]) in Relevantes(ks, base, anchors)
    decreases |anchors|
  {
    if anchors != [] {
      RelevantesComplete(ks, base, anchors[1..]);
      var links := Relevantes(ks, base, anchors);
      forall i | 0 <= i < |anchors| && Candidate(base, anchors[i]) && Relevance(ks, anchors[i]) > 0
        ensures LinkOf(ks, anchors[i]) in links
      {
        if i > 0 {
          assert anchors[1..][i - 1] == anchors[i];
        }
      }
    }
  }

  /** Relevance never increases along the sequence. */
  predicate Descending(links: seq<Link>) {
    forall i, j :: 0 <= i < j < |links| ==> links[i].relevancia >= links[j].relevancia
  }

  /** Put a link before the first one that is not more relevant, so that equally relevant links keep their order. */
  function Insert(x: Link, links: seq<Link>): (r: seq<Link>)
    requires Descending(links)
    ensures Descending(r)
    ensures multiset(r) == multiset(links) + multiset{x}
    ensures |r| == |links| + 1
    ensures r[0] == x || (links != [] && r[0] == links[0])
  {
    if links == [] || links[0].relevancia <= x.relevancia then
      [x] + links
    else
      var rest := Insert(x, links[1..]);
      assert links == [links[0]] + links[1..];
      assert links[0].relevancia >= rest[0].relevancia;
      forall k | 0 <= k < |rest|
        ensures links[0].relevancia >= rest[k].relevancia
      {
        assert k == 0 || rest[0].relevancia >= rest[k].relevancia;
      }
      [links[0]] + rest
  }

  /** `links_relevantes.sort(key=relevance, reverse=True)`: a stable sort by decreasing relevance. */
  function SortDesc(links: seq<Link>): (r: seq<Link>)
    ensures Descending(r)
    ensures multiset(r) == multiset(links)
  {
    if links == [] then []
    else
      assert links == [links[0]] + links[1..];
      Insert(links[0], SortDesc(links[1..]))
  }

  /** The links explored: the three most relevant candidates, most relevant first. */
  function Top(ks: set<string>, url: string, page: Page): (links: seq<Link>)
    ensures |links| <= 3
    ensures Descending(links)
  {
    Take(SortDesc(Relevantes(ks, DominioBase(url), page.anchors)), 3)
  }

  /** Every link explored is a relevant candidate of the page. */
  lemma TopAreRelevant(ks: set<string>, url: string, page: Page)
    ensures forall l :: l in Top(ks, url, page) ==>
      l.relevancia > 0 && l in Relevantes(ks, DominioBase(url), page.anchors) && LinkFrom(ks, DominioBase(url), page.anchors, l)
  {
    var all := Relevantes(ks, DominioBase(url), page.anchors);
    RelevantesSound(ks, DominioBase(url), page.anchors);
    SortedMembers(all);
    var top := Top(ks, url, page);
    forall l | l in top ensures l in all {
      var j :| 0 <= j < |top| && top[j] == l;
      assert top[j] == SortDesc(all)[j];
    }
  }

  /** Sorting keeps the same links. */
  lemma SortedMembers(links: seq<Link>)
    ensures forall j :: 0 <= j < |SortDesc(links)| ==> SortDesc(links)[j] in links
  {
    var sorted := SortDesc(links);
    forall j | 0 <= j < |sorted| ensures sorted[j] in links {
      assert sorted[j] in multiset(sorted);
    }
  }

  /** The link loop's first part: the relevant candidates in page order. */
  method RelevantLinks(ks: set<string>, url: string, anchors: seq<Anchor>) returns (links: seq<Link>)
    ensures links == Relevantes(ks, DominioBase(url), anchors)
  {
    var dominioBase := JoinWith(Take(SplitOn(url, '/'), 3), '/');
    links := RelevantOn(ks, dominioBase, anchors);
  }

  /** The loop over the anchors, with the base host computed. */
  method RelevantOn(ks: set<string>, dominioBase: string, anchors: seq<Anchor>) returns (links: seq<Link>)
    ensures links == Relevantes(ks, dominioBase, anchors)
  {
    links := [];
    for i := 0 to |anchors|
      invariant Relevantes(ks, dominioBase, anchors) == links + Relevantes(ks, dominioBase, anchors[i..])
    {
      var a := anchors[i];
      ghost var before := links;
      ghost var head := if Candidate(dominioBase, a) && Relevance(ks, a) > 0 then [LinkOf(ks, a)] else [];
      RelevantesCons(ks, dominioBase, anchors, i);
      if Candidate(dominioBase, a) {
        var relevancia := CountHits(ks, [Lower(a.text), Lower(a.href.value)]);
        if relevancia > 0 {
          links := links + [Link(a.href.value, relevancia, Lower(a.text))];
        }
      }
      assert links == before + head;
      AppendAssoc(before, head, Relevantes(ks, dominioBase, anchors[i + 1..]));
    }
  }

  /** `Relevantes` from position `i`: the link of anchor `i`, if any, then those after it. */
  lemma RelevantesCons(ks: set<string>, base: string, anchors: seq<Anchor>, i: nat)
    requires i < |anchors|
    ensures Relevantes(ks, base, anchors[i..]) ==
      (if Candidate(base, anchors[i]) && Relevance(ks, anchors[i]) > 0 then [LinkOf(ks, anchors[i])] else []) +
      Relevantes(ks, base, anchors[i + 1..])
  {
    assert anchors[i..][1..] == anchors[i + 1..];
  }

  // ---------------------------------------------------------------------
  // The best page
  // ---------------------------------------------------------------------

  /** `melhor_pontuacao`, `melhor_url` and `urls_visitadas`. */
  datatype Melhor = Melhor(pontuacao: real, url: string, visitadas: set<string>)

  /** A page scored `s` at `u` replaces the best only when it scores strictly more. */
  function Offer(m: Melhor, s: real, u: string): (r: Melhor)
    ensures r.pontuacao >= m.pontuacao && r.pontuacao >= s
    ensures r.pontuacao == m.pontuacao || r.pontuacao == s
    ensures r.url == m.url || (r.url == u && r.pontuacao == s && s > m.pontuacao)
    ensures r.pontuacao == m.pontuacao ==> r.url == m.url
    ensures r.visitadas == m.visitadas
  {
    if s > m.pontuacao then m.(pontuacao := s, url := u) else m
  }

  /** Visiting one relevant link: skipped when already visited, and left unrecorded when the browser fails. */
  function Step(b: Browser, ks: set<string>, href: string, m: Melhor): Melhor {
    if href in m.visitadas then m
    else
      match b.visit(href)
      case Crashed => m
      case Loaded(page, readable) =>
        Offer(m, Pontuacao(ks, page, readable), href).(visitadas := m.visitadas + {href})
  }

  /** The loop over the links to explore, in order. */
  function Explore(b: Browser, ks: set<string>, links: seq<Link>, m: Melhor): Melhor
    decreases |links|
  {
    if links == [] then m else Explore(b, ks, links[1..], Step(b, ks, links[0].href, m))
  }

  /** A link newly and successfully visited. */
  predicate Scored(b: Browser, href: string, m: Melhor) {
    href !in m.visitadas && b.visit(href).Loaded?
  }

  /**
   * Exploring only raises the best score, moves the best URL only with a
   * strictly higher score and then to an explored link, and ends with a
   * score at least that of every link it newly visited.
   */
  lemma {:induction false} ExploreKeepsBest(b: Browser, ks: set<string>, links: seq<Link>, m: Melhor)
    ensures Explore(b, ks, links, m).pontuacao >= m.pontuacao
    ensures Explore(b, ks, links, m).url == m.url ||
      (Explore(b, ks, links, m).pontuacao > m.pontuacao && exists j :: 0 <= j < |links| && Explore(b, ks, links, m).url == links[j].href)
    ensures m.visitadas <= Explore(b, ks, links, m).visitadas
    ensures forall x :: x in Explore(b, ks, links, m).visitadas - m.visitadas ==> exists j :: 0 <= j < |links| && x == links[j].href
    ensures forall j :: 0 <= j < |links| && Scored(b, links[j].href, m) ==>
      Pontuacao(ks, b.visit(links[j].href).page, b.visit(links[j].href).readable) <= Explore(b, ks, links, m).pontuacao
    decreases |links|
  {
    if links != [] {
      var m1 := Step(b, ks, links[0].href, m);
      var r := Explore(b, ks, links[1..], m1);
      ExploreKeepsBest(b, ks, links[1..], m1);
      assert r == Explore(b, ks, links, m);
      forall j | 0 <= j < |links| && Scored(b, links[j].href, m)
        ensures Pontuacao(ks, b.visit(links[j].href).page, b.visit(links[j].href).readable) <= r.pontuacao
      {
        if j == 0 || links[j].href in m1.visitadas {
          assert links[j].href in m1.visitadas;
        } else {
          assert links[1..][j - 1] == links[j];
        }
      }
      forall x | x in r.visitadas - m.visitadas ensures exists j :: 0 <= j < |links| && x == links[j].href {
        if x !in m1.visitadas {
          assert x in r.visitadas - m1.visitadas;
          var j :| 0 <= j < |links[1..]| && x == links[1..][j].href;
          assert x == links[j + 1].href;
        } else {
          assert x == links[0].href;
        }
      }
      if r.url != m.url {
        if r.url == m1.url {
          assert r.url == links[0].href;
        } else {
          var j :| 0 <= j < |links[1..]| && r.url == links[1..][j].href;
          assert r.url == links[j + 1].href;
        }
      }
    }
  }

  /** The link loop's second part: visit each link in order and keep the best page. */
  method ExploreLinks(b: Browser, ks: set<string>, links: seq<Link>, m: Melhor) returns (r: Melhor)
    ensures r == Explore(b, ks, links, m)
  {
    r := m;
    for i := 0 to |links|
      invariant Explore(b, ks, links, m) == Explore(b, ks, links[i..], r)
    {
      assert links[i..][1..] == links[i + 1..];
      var href := links[i].href;
      if href !in r.visitadas {
        var v := b.visit(href);
        if v.Loaded? {
          var pontuacao := PontuarPaginaAtual(ks, v.page, v.readable);
          if pontuacao > r.pontuacao {
            r := r.(pontuacao := pontuacao, url := href);
          }
          r := r.(visitadas := r.visitadas + {href});
        }
      }
    }
  }

  // ---------------------------------------------------------------------
  // One question
  // ---------------------------------------------------------------------

  /** What the observation says: the score, that nothing was found, or that the browser failed. */
  datatype Observacao = Pontuada(percent: real) | NaoEncontrada | Erro

  /** The answer of `verificar_item`. */
  datatype ItemResult = ItemResult(atende: bool, pontuacao: real, url: string, observacao: Observacao)

  /** The best page after the home page and the site's search box. */
  function AfterSearch(b: Browser, ks: set<string>, url: string, page: Page, readable: bool): Melhor {
    var m := Melhor(Pontuacao(ks, page, readable), url, {url});
    match b.internalSearch(url, ks)
    case NoField => m
    case Searched(cur, p, r) => Offer(m, Pontuacao(ks, p, r), cur).(visitadas := m.visitadas + {cur})
  }

  /** The best page after exploring, which happens only below half marks. */
  function Explored(b: Browser, ks: set<string>, url: string, page: Page, m: Melhor): Melhor {
    if m.pontuacao < 0.5 then Explore(b, ks, Top(ks, url, page), m) else m
  }

  /** The verdict on the best page: at least 30 % passes. */
  function Verdict(m: Melhor): (r: ItemResult)
    ensures r.atende <==> m.pontuacao >= 0.3
    ensures r.pontuacao == m.pontuacao && r.url == m.url
  {
    var atende := m.pontuacao >= 0.3;
    ItemResult(atende, m.pontuacao, m.url, if atende then Pontuada(m.pontuacao) else NaoEncontrada)
  }

  /** `verificar_item(url, pergunta)` as a value; a failure to open the base URL answers with score 0 at that URL. */
  function Verificacao(b: Browser, url: string, pergunta: string): (r: ItemResult)
    ensures r.atende <==> r.pontuacao >= 0.3
    ensures b.visit(url).Crashed? ==> r == ItemResult(false, 0.0, url, Erro)
  {
    var ks := PalavrasChave(pergunta);
    match b.visit(url)
    case Crashed => ItemResult(false, 0.0, url, Erro)
    case Loaded(page, readable) =>
      Verdict(Explored(b, ks, url, page, AfterSearch(b, ks, url, page, readable)))
  }

  /**
   * Starting from the home page's score, the answer's score is never lower,
   * its URL differs from the base URL only with a strictly higher score, and
   * it lies between 0 and 1.
   */
  lemma ItemBest(b: Browser, url: string, pergunta: string)
    requires b.visit(url).Loaded?
    ensures var ks := PalavrasChave(pergunta);
      var inicial := Pontuacao(ks, b.visit(url).page, b.visit(url).readable);
      var r := Verificacao(b, url, pergunta);
      r.pontuacao >= inicial && (r.url != url ==> r.pontuacao > inicial) && r.pontuacao <= 1.0
  {
    var ks := PalavrasChave(pergunta);
    var page := b.visit(url).page;
    var m1 := AfterSearch(b, ks, url, page, b.visit(url).readable);
    var links := Top(ks, url, page);
    if m1.pontuacao < 0.5 {
      ExploreKeepsBest(b, ks, links, m1);
      ExploreBounded(b, ks, links, m1);
    }
  }

  /** Scores stay within 0 and 1 while exploring. */
  lemma {:induction false} ExploreBounded(b: Browser, ks: set<string>, links: seq<Link>, m: Melhor)
    requires 0.0 <= m.pontuacao <= 1.0
    ensures 0.0 <= Explore(b, ks, links, m).pontuacao <= 1.0
    decreases |links|
  {
    if links != [] {
      ExploreBounded(b, ks, links[1..], Step(b, ks, links[0].href, m));
    }
  }

  /** Once the home page and the search box reach half marks, no link is explored. */
  lemma NoExplorationWhenHalf(b: Browser, url: string, pergunta: string)
    requires b.visit(url).Loaded?
    requires AfterSearch(b, PalavrasChave(pergunta), url, b.visit(url).page, b.visit(url).readable).pontuacao >= 0.5
    ensures var m := AfterSearch(b, PalavrasChave(pergunta), url, b.visit(url).page, b.visit(url).readable);
      Verificacao(b, url, pergunta) == Verdict(m)
  {
  }

  /** The home page's score, then the site's search box: the first two steps of `verificar_item`. */
  method ScoreHomeAndSearch(b: Browser, ks: set<string>, url: string, page: Page, readable: bool) returns (m: Melhor)
    ensures m == AfterSearch(b, ks, url, page, readable)
  {
    var inicial := PontuarPaginaAtual(ks, page, readable);
    m := Melhor(inicial, url, {url});
    var busca := b.internalSearch(url, ks);
    if busca.Searched? {
      var pontuacao := PontuarPaginaAtual(ks, busca.page, busca.readable);
      if pontuacao > m.pontuacao {
        m := m.(pontuacao := pontuacao, url := busca.currentUrl);
      }
      m := m.(visitadas := m.visitadas + {busca.currentUrl});
    }
  }

  /** `verificar_item(url, pergunta)`: the home page, the search box, then the most relevant links while the score is below half. */
  method VerificarItem(b: Browser, url: string, pergunta: string) returns (r: ItemResult)
    ensures r == Verificacao(b, url, pergunta)
  {
    var ks := PalavrasChave(pergunta);
    var v := b.visit(url);
    if v.Crashed? {
      return ItemResult(false, 0.0, url, Erro);
    }
    var m := ScoreHomeAndSearch(b, ks, url, v.page, v.readable);
    if m.pontuacao < 0.5 {
      var links := RelevantLinks(ks, url, v.page.anchors);
      links := SortDesc(links);
      m := ExploreLinks(b, ks, Take(links, 3), m);
    }
    var atende := m.pontuacao >= 0.3;
    r := ItemResult(atende, m.pontuacao, m.url, if atende then Pontuada(m.pontuacao) else NaoEncontrada);
  }

  // ---------------------------------------------------------------------
  // Finding the sites and evaluating a body
  // ---------------------------------------------------------------------

  /** Google's cached copies are never taken as the site. */
  const WebCache := "https://webcache.googleusercontent.com"

  datatype Kind = Official | Transparency

  /** A Google result accepted as the official site or as the transparency portal. */
  predicate Accepts(kind: Kind, link: Option<string>) {
    Truthy(link) && !IsPrefix(WebCache, link.value) &&
    match kind
    case Official => Contains(link.value, ".gov.br")
    case Transparency => Contains(Lower(link.value), "transparencia") || Contains(Lower(link.value), "transparência")
  }

  /** The first accepted link among the results. */
  function FirstAccepted(kind: Kind, links: seq<Option<string>>): (r: Option<string>)
    ensures r.Some? ==> exists i :: (0 <= i < |links| && Accepts(kind, links[i]) && links[i] == r &&
      forall j :: 0 <= j < i ==> !Accepts(kind, links[j]))
    ensures r.None? <==> forall j :: 0 <= j < |links| ==> !Accepts(kind, links[j])
  {
    if links == [] then None
    else if Accepts(kind, links[0]) then links[0]
    else
      FirstAccepted(kind, links[1..])
  }

  /** The search loop: the first of the results accepted, stopping there. */
  method FirstAcceptedLink(kind: Kind, links: seq<Option<string>>) returns (r: Option<string>)
    ensures r == FirstAccepted(kind, links)
  {
    r := None;
    var i := 0;
    while i < |links|
      invariant 0 <= i <= |links|
      invariant FirstAccepted(kind, links) == FirstAccepted(kind, links[i..])
    {
      assert links[i..][1..] == links[i + 1..];
      if Accepts(kind, links[i]) {
        r := links[i];
        return;
      }
      i := i + 1;
    }
  }

  function QuerySite(orgao: string): string { orgao + " site oficial gov.br" }
  function QueryPortal(orgao: string): string { orgao + " portal transparência" }

  /** A field keeps its value when the search finds nothing. */
  function Keep(found: Option<string>, previous: Option<string>): (r: Option<string>)
    ensures found.Some? ==> r == found
    ensures found.None? ==> r == previous
  {
    if found.Some? then found else previous
  }

  /** A question from the fixed list. */
  datatype Pergunta = Pergunta(id: string, texto: string, classificacao: string)

  /** `obter_perguntas_padrao()` */
  const Perguntas: seq<Pergunta> := [
    Pergunta("1.1", "Possui sítio oficial próprio na internet?", "Essencial"),
    Pergunta("1.2", "Possui portal da transparência próprio ou compartilhado na internet?", "Essencial"),
    Pergunta("2.1", "Divulga a sua estrutura organizacional?", "Obrigatória"),
    Pergunta("2.2", "Divulga competências e/ou atribuições?", "Obrigatória"),
    Pergunta("2.3", "Identifica o nome dos atuais responsáveis pela gestão do Poder/Órgão?", "Obrigatória"),
    Pergunta("2.4", "Divulga os endereços e telefones atuais do Poder ou órgão e e-mails institucionais?", "Obrigatória"),
    Pergunta("8.1", "Divulga a relação das licitações em ordem sequencial?", "Obrigatória")
  ]

  /** Questions about the portal, transparency or procurement are checked on the portal. */
  predicate UsesPortal(texto: string) {
    Contains(Lower(texto), "portal") || Contains(Lower(texto), "transparência") || Contains(Lower(texto), "licitações")
  }

  /** The URL a question is checked on: for portal questions the portal when known, else the site. */
  function UrlBase(texto: string, site: string, portal: Option<string>): (u: string)
    ensures !UsesPortal(texto) ==> u == site
    ensures UsesPortal(texto) ==> u == if Truthy(portal) then portal.value else site
  {
    if UsesPortal(texto) then (if Truthy(portal) then portal.value else site) else site
  }

  /** One record of `avaliar_orgao`'s answer. */
  datatype Registro = Registro(id: string, pergunta: string, classificacao: string,
                               atende: bool, pontuacao: real, url: string, observacao: Observacao)

  function Record(q: Pergunta, r: ItemResult): Registro {
    Registro(q.id, q.texto, q.classificacao, r.atende, r.pontuacao, r.url, r.observacao)
  }

  /** The record of one question, checked on its own URL. */
  function Checked(b: Browser, site: string, portal: Option<string>, q: Pergunta): Registro {
    Record(q, Verificacao(b, UrlBase(q.texto, site, portal), q.texto))
  }

  /** Checking a question with this browser and these sites. */
  function Assess(b: Browser, site: string, portal: Option<string>): Pergunta -> Registro {
    q => Checked(b, site, portal, q)
  }

  /** `f` applied to each element, in order. */
  function MapSeq<A, B>(f: A -> B, xs: seq<A>): (ys: seq<B>)
    ensures |ys| == |xs|
  {
    seq(|xs|, i requires 0 <= i < |xs| => f(xs[i]))
  }

  /** Mapping one more element appends its image. */
  lemma MapSeqSnoc<A, B>(f: A -> B, xs: seq<A>, i: nat)
    requires i < |xs|
    ensures MapSeq(f, xs[..i + 1]) == MapSeq(f, xs[..i]) + [f(xs[i])]
  {
  }

  /** The records for the questions, each checked on its own URL. */
  function Records(b: Browser, site: string, portal: Option<string>, qs: seq<Pergunta>): (rs: seq<Registro>)
    ensures |rs| == |qs|
  {
    MapSeq(Assess(b, site, portal), qs)
  }

  /** Each record carries its question's id, text and classification, and meets the question exactly when it scores at least 0.3. */
  lemma RecordsShape(b: Browser, site: string, portal: Option<string>, qs: seq<Pergunta>)
    ensures var rs := Records(b, site, portal, qs);
      forall i :: 0 <= i < |qs| ==> (rs[i].id == qs[i].id && rs[i].pergunta == qs[i].texto &&
        rs[i].classificacao == qs[i].classificacao && (rs[i].atende <==> rs[i].pontuacao >= 0.3))
  {
    var rs := Records(b, site, portal, qs);
    forall i | 0 <= i < |qs|
      ensures rs[i].id == qs[i].id && rs[i].pergunta == qs[i].texto &&
        rs[i].classificacao == qs[i].classificacao && (rs[i].atende <==> rs[i].pontuacao >= 0.3)
    {
      var r := Verificacao(b, UrlBase(qs[i].texto, site, portal), qs[i].texto);
      assert rs[i] == Assess(b, site, portal)(qs[i]) == Record(qs[i], r);
    }
  }

  /** `avaliar_orgao(orgao)`'s records once the sites are known: none without an official site. */
  function Avaliacao(b: Browser, site: Option<string>, portal: Option<string>): (rs: seq<Registro>)
    ensures !Truthy(site) ==> rs == []
    ensures Truthy(site) ==> |rs| == |Perguntas|
  {
    if !Truthy(site) then [] else Records(b, site.value, portal, Perguntas)
  }

  /** The question loop of `avaliar_orgao`: each question checked on its URL, its record appended. */
  method CheckQuestions(b: Browser, site: string, portal: Option<string>, qs: seq<Pergunta>) returns (resultados: seq<Registro>)
    ensures resultados == Records(b, site, portal, qs)
  {
    resultados := [];
    for i := 0 to |qs|
      invariant resultados == Records(b, site, portal, qs[..i])
    {
      var registro := CheckQuestion(b, site, portal, qs[i]);
      MapSeqSnoc(Assess(b, site, portal), qs, i);
      assert Assess(b, site, portal)(qs[i]) == registro;
      resultados := resultados + [registro];
    }
    assert qs[..|qs|] == qs;
  }

  /** One question of that loop: its URL, its check and its record. */
  method CheckQuestion(b: Browser, site: string, portal: Option<string>, pergunta: Pergunta) returns (registro: Registro)
    ensures registro == Checked(b, site, portal, pergunta)
  {
    var urlBase := UrlBase(pergunta.texto, site, portal);
    var resultado := VerificarItem(b, urlBase, pergunta.texto);
    registro := Record(pergunta, resultado);
  }



  /** The evaluator: the driver and the two URLs found by the last search. */
  class VerificadorTransparencia {
    const driver: Browser
    var siteOficial: Option<string>
    var portalTransparencia: Option<string>

    constructor(driver: Browser)
      ensures this.driver == driver
      ensures siteOficial == None && portalTransparencia == None
    {
      this.driver := driver;
      siteOficial := None;
      portalTransparencia := None;
    }

    /**
     * `buscar_sites_do_orgao(orgao)`: the first `.gov.br` link among the
     * first five results for the site, then the first link mentioning
     * transparency for the portal; a search that finds nothing leaves the
     * previous value in place.
     */
    method BuscarSitesDoOrgao(orgao: string) returns (site: Option<string>, portal: Option<string>)
      modifies this
      ensures siteOficial == Keep(FirstAccepted(Official, Take(driver.google(QuerySite(orgao)), 5)), old(siteOficial))
      ensures portalTransparencia == Keep(FirstAccepted(Transparency, Take(driver.google(QueryPortal(orgao)), 5)), old(portalTransparencia))
      ensures site == siteOficial && portal == portalTransparencia
    {
      var resultados := driver.google(QuerySite(orgao));
      var achado := FirstAcceptedLink(Official, Take(resultados, 5));
      if achado.Some? {
        siteOficial := achado;
      }
      resultados := driver.google(QueryPortal(orgao));
      achado := FirstAcceptedLink(Transparency, Take(resultados, 5));
      if achado.Some? {
        portalTransparencia := achado;
      }
      site, portal := siteOficial, portalTransparencia;
    }

    /** `avaliar_orgao(orgao)`: find the sites, then check every question on its URL. */
    method AvaliarOrgao(orgao: string) returns (resultados: seq<Registro>)
      modifies this
      ensures siteOficial == Keep(FirstAccepted(Official, Take(driver.google(QuerySite(orgao)), 5)), old(siteOficial))
      ensures portalTransparencia == Keep(FirstAccepted(Transparency, Take(driver.google(QueryPortal(orgao)), 5)), old(portalTransparencia))
      ensures resultados == Avaliacao(driver, siteOficial, portalTransparencia)
    {
      resultados := [];
      var _, _ := BuscarSitesDoOrgao(orgao);
      if !Truthy(siteOficial) {
        return;
      }
      resultados := CheckQuestions(driver, siteOficial.value, portalTransparencia, Perguntas);
    }
  }
}
