/**
 * The web back end of backend/app.py without its transport: the criterion
 * sheet lookup and the per-criterion endpoint, and the evaluation run that
 * finds a body's official site and transparency portal, checks every
 * question and streams status messages and result records through a queue.
 * The worker thread runs here as a method called after `Start`.
 */
module App {
  import opened Base
  import opened Html
  import opened SearchCache
  import opened Scraper

  // ---------------------------------------------------------------------
  // obter_link_da_planilha
  // ---------------------------------------------------------------------

  /**
   * A row of the criterion sheet: `sigla_UG` (absent when it is not text),
   * `ID_criterio` as text, and `link` as text (absent when NaN).
   */
  datatype SheetRow = SheetRow(ug: Option<string>, id: string, link: Option<string>)

  /** `s.strip().lower()`, how both sides of the UG comparison are prepared. */
  function UgKey(s: string): string {
    Lower(Strip(s))
  }

  predicate RowSelected(row: SheetRow, sigla: string, id: string) {
    row.ug.Some? && UgKey(row.ug.value) == UgKey(sigla) && row.id == id
  }

  /** The position of the first row for this UG and criterion. */
  function FirstSelected(rows: seq<SheetRow>, sigla: string, id: string): (k: Option<nat>)
    ensures k.Some? ==> k.value < |rows| && RowSelected(rows[k.value], sigla, id)
    ensures forall j :: 0 <= j < |rows| && (k.None? || j < k.value) ==> !RowSelected(rows[j], sigla, id)
  {
    if rows == [] then None
    else if RowSelected(rows[0], sigla, id) then Some(0)
    else
      match FirstSelected(rows[1..], sigla, id)
      case None => None
      case Some(j) => Some(j + 1)
  }

  /**
   * `obter_link_da_planilha(sigla_UG, ID_criterio)`: the trimmed link of the
   * first row for the UG (trimmed, any case) and the criterion; `None` without
   * a sheet, without such a row, or when its link is NaN or blank.
   */
  function ObterLinkDaPlanilha(sheet: Option<seq<SheetRow>>, sigla: string, id: string): (r: Option<string>)
    ensures sheet.None? ==> r.None?
    ensures r.Some? ==> r.value != [] && Strip(r.value) == r.value
  {
    if sheet.None? then None
    else
      match FirstSelected(sheet.value, sigla, id)
      case None => None
      case Some(k) =>
        var link := sheet.value[k].link;
        if link.None? || Strip(link.value) == [] then None
        else
          StripIdempotent(link.value);
          Some(Strip(link.value))
  }

  /** The first row for the UG and the criterion decides, whatever rows come after it. */
  lemma SheetFirstRowDecides(rows: seq<SheetRow>, sigla: string, id: string, k: nat)
    requires k < |rows| && RowSelected(rows[k], sigla, id)
    requires forall j :: 0 <= j < k ==> !RowSelected(rows[j], sigla, id)
    ensures ObterLinkDaPlanilha(Some(rows), sigla, id) ==
      (if rows[k].link.None? || Strip(rows[k].link.value) == [] then None else Some(Strip(rows[k].link.value)))
  {
    var f := FirstSelected(rows, sigla, id);
    assert f == Some(k);
  }

  /** The UG is matched ignoring case and surrounding whitespace. */
  lemma SheetUgCaseInsensitive(sheet: Option<seq<SheetRow>>, a: string, b: string, id: string)
    requires UgKey(a) == UgKey(b)
    ensures ObterLinkDaPlanilha(sheet, a, id) == ObterLinkDaPlanilha(sheet, b, id)
  {
    if sheet.Some? {
      var rows := sheet.value;
      assert forall j :: 0 <= j < |rows| ==> (RowSelected(rows[j], a, id) <==> RowSelected(rows[j], b, id));
      FirstSelectedSame(rows, a, b, id);
    }
  }

  lemma {:induction false} FirstSelectedSame(rows: seq<SheetRow>, a: string, b: string, id: string)
    requires UgKey(a) == UgKey(b)
    ensures FirstSelected(rows, a, id) == FirstSelected(rows, b, id)
  {
    if rows != [] {
      FirstSelectedSame(rows[1..], a, b, id);
    }
  }

  // ---------------------------------------------------------------------
  // avaliar_criterio_endpoint
  // ---------------------------------------------------------------------

  /** The verification items mapped to a criterion: only "1.1" and "2.1" have any. */
  function ItensAplicaveis(id: Option<string>): (items: seq<string>)
    ensures id != Some("1.1") && id != Some("2.1") ==> items == []
    ensures forall k :: 0 <= k < |items| ==> items[k] != "filtro_pesquisa"
  {
    if id == Some("1.1") then ["disponibilidade"]
    else if id == Some("2.1") then ["disponibilidade", "atualidade", "serie_historica", "gravacao_relatorios"]
    else []
  }

  /** The text recorded for an applicable item when the sheet has a link. */
  function LinkedVerdict(item: string, id: Option<string>, link: string, net: Net): string {
    if item == "disponibilidade" then
      if id == Some("1.1") then (if IsAvailable(net, link) then "Atendido" else "Não Atendido")
      else "Atendido (verificação de conteúdo pendente)"
    else if item == "atualidade" || item == "filtro_pesquisa" then "Não Atendido (verificação pendente)"
    else "Atendido (verificação pendente)"
  }

  /** The endpoint's answer: a 400 error, or the verdict per item and the evidence text. */
  datatype Reply = BadRequest | Verdicts(results: map<string, string>, evidencia: string)

  /** `avaliar_criterio_endpoint()` as a value. */
  function AvaliarCriterio(sheet: Option<seq<SheetRow>>, ug: Option<string>, descricao: Option<string>, id: Option<string>, net: Net): Reply {
    if !Truthy(ug) || !Truthy(descricao) then BadRequest
    else
      var link := ObterLinkDaPlanilha(sheet, ug.value, Render(id));
      var items := ItensAplicaveis(id);
      if link.Some? then
        Verdicts(map item | item in items :: LinkedVerdict(item, id, link.value, net), "Evidência: " + link.value)
      else
        Verdicts(map item | item in items :: "Não Atendido", "Evidência: não há página contendo a divulgação exigida pelo critério")
  }

  /** Exactly the applicable items get a verdict, and without a sheet link every one is "Não Atendido". */
  lemma AvaliarCriterioItems(sheet: Option<seq<SheetRow>>, ug: Option<string>, descricao: Option<string>, id: Option<string>, net: Net)
    requires Truthy(ug) && Truthy(descricao)
    ensures var r := AvaliarCriterio(sheet, ug, descricao, id, net);
      r.Verdicts? && r.results.Keys == set item | item in ItensAplicaveis(id)
    ensures var r := AvaliarCriterio(sheet, ug, descricao, id, net);
      ObterLinkDaPlanilha(sheet, ug.value, Render(id)).None? ==> forall item :: item in r.results ==> r.results[item] == "Não Atendido"
  {
  }

  /** `avaliar_criterio_endpoint()`: the item checks one after another, or the loop marking every item unmet. */
  method AvaliarCriterioEndpoint(sheet: Option<seq<SheetRow>>, ug: Option<string>, descricao: Option<string>, id: Option<string>, net: Net)
    returns (r: Reply)
    ensures r == AvaliarCriterio(sheet, ug, descricao, id, net)
  {
    if !Truthy(ug) || !Truthy(descricao) {
      return BadRequest;
    }
    var link := ObterLinkDaPlanilha(sheet, ug.value, Render(id));
    var items := ItensAplicaveis(id);
    if link.Some? {
      var results := CheckItems(items, id, link.value, net);
      return Verdicts(results, "Evidência: " + link.value);
    }
    var results := UnmetVerdicts(items, id);
    return Verdicts(results, "Evidência: não há página contendo a divulgação exigida pelo critério");
  }

  /** Without a sheet link: every item unmet, and availability of criterion 1.1 set unmet once more. */
  method UnmetVerdicts(items: seq<string>, id: Option<string>) returns (results: map<string, string>)
    ensures results == map item | item in items :: "Não Atendido"
  {
    results := MarkUnmet(items);
    if "disponibilidade" in items && id == Some("1.1") {
      ghost var before := results;
      results := results["disponibilidade" := "Não Atendido"];
      assert results == before;
    }
  }

  /** The per-item checks made when the sheet has a link. */
  method CheckItems(items: seq<string>, id: Option<string>, link: string, net: Net) returns (results: map<string, string>)
    requires items == ItensAplicaveis(id)
    ensures results == map item | item in items :: LinkedVerdict(item, id, link, net)
  {
    results := map[];
    if "disponibilidade" in items {
      if id == Some("1.1") {
        results := results["disponibilidade" := if IsAvailable(net, link) then "Atendido" else "Não Atendido"];
      } else {
        results := results["disponibilidade" := "Atendido (verificação de conteúdo pendente)"];
      }
    }
    if "atualidade" in items {
      results := results["atualidade" := "Não Atendido (verificação pendente)"];
    }
    if "serie_historica" in items {
      results := results["serie_historica" := "Atendido (verificação pendente)"];
    }
    if "gravacao_relatorios" in items {
      results := results["gravacao_relatorios" := "Atendido (verificação pendente)"];
    }
    if "filtro_pesquisa" in items {
      results := results["filtro_pesquisa" := "Não Atendido (verificação pendente)"];
    }
    if id == Some("1.1") {
      assert results.Keys == {"disponibilidade"};
    } else if id == Some("2.1") {
      assert results.Keys == {"disponibilidade", "atualidade", "serie_historica", "gravacao_relatorios"};
    }
    VerdictMap(items, results, id, link, net);
  }

  /** A map with the items as keys and each item's linked verdict as value is the verdict map. */
  lemma VerdictMap(items: seq<string>, results: map<string, string>, id: Option<string>, link: string, net: Net)
    requires results.Keys == set item | item in items
    requires forall item :: item in results ==> results[item] == LinkedVerdict(item, id, link, net)
    ensures results == map item | item in items :: LinkedVerdict(item, id, link, net)
  {
  }

  /** The loop marking every applicable item "Não Atendido" when the sheet has no link. */
  method MarkUnmet(items: seq<string>) returns (results: map<string, string>)
    ensures results == map item | item in items :: "Não Atendido"
  {
    results := map[];
    var i := 0;
    while i < |items|
      invariant 0 <= i <= |items|
      invariant results == map item | item in items[..i] :: "Não Atendido"
    {
      assert items[..i + 1] == items[..i] + [items[i]];
      results := results[items[i] := "Não Atendido"];
      i := i + 1;
    }
    assert items[..i] == items;
  }

  // ---------------------------------------------------------------------
  // executar_scraping: the official-site and portal ladders
  // ---------------------------------------------------------------------

  /** `orgao_simplificado`: lower-cased, the two institutional prefixes removed, normalized. */
  function Simplified(orgao: string): string {
    Normalize(Replace(Replace(Lower(orgao), "prefeitura de ", ""), "câmara municipal de ", ""))
  }

  /** The four official-site addresses tried directly, in order. */
  function SiteDomains(s: string): seq<string> {
    ["https://www." + s + ".am.gov.br", "https://" + s + ".am.gov.br",
     "https://www.prefeitura" + s + ".am.gov.br", "https://prefeitura" + s + ".am.gov.br"]
  }

  /** The four portal addresses tried directly, in order. */
  function PortalDomains(s: string): seq<string> {
    ["https://transparencia." + s + ".am.gov.br", "https://" + s + ".am.gov.br/transparencia",
     "https://www." + s + ".am.gov.br/transparencia", "https://transparencia." + s + ".leg.br"]
  }

  /** The first address that answers 200. */
  function FirstAvailable(net: Net, urls: seq<string>): (r: Option<string>)
    ensures r.Some? ==> Truthy(r) && IsAvailable(net, r.value)
    ensures r.Some? ==> exists k :: 0 <= k < |urls| && urls[k] == r.value && forall j :: 0 <= j < k ==> !IsAvailable(net, urls[j])
    ensures r.None? <==> forall k :: 0 <= k < |urls| ==> !IsAvailable(net, urls[k])
  {
    if urls == [] then None
    else if IsAvailable(net, urls[0]) then Some(urls[0])
    else
      var r := FirstAvailable(net, urls[1..]);
      if r.Some? then
        var k :| 0 <= k < |urls[1..]| && urls[1..][k] == r.value && forall j :: 0 <= j < k ==> !IsAvailable(net, urls[1..][j]);
        assert urls[k + 1] == r.value;
        assert forall j :: 0 <= j < k + 1 ==> !IsAvailable(net, urls[j]) by {
          forall j | 0 < j < k + 1 ensures !IsAvailable(net, urls[j]) {
            assert urls[j] == urls[1..][j - 1];
          }
        }
        r
      else
        assert forall k :: 0 <= k < |urls| ==> !IsAvailable(net, urls[k]) by {
          forall k | 0 < k < |urls| ensures !IsAvailable(net, urls[k]) {
            assert urls[k] == urls[1..][k - 1];
          }
        }
        r
  }

  /** `cached and cached[0]`: a fresh cached list whose first entry is non-empty. */
  function CachedFirst(entries: map<string, Entry>, query: string, now: int): (r: Option<string>)
    ensures r.Some? ==> r.value != "" && query in entries && entries[query].results != [] && r.value == entries[query].results[0]
  {
    var cached := LookupIn(entries, query, now);
    if cached.Some? && cached.value != [] && cached.value[0] != "" then Some(cached.value[0]) else None
  }

  /** A URL found (or not) and the cache contents afterwards. */
  datatype Resolution = Resolution(url: Option<string>, entries: map<string, Entry>)

  /**
   * The tail of every ladder: keep a URL already found; otherwise the first
   * cached result; otherwise the first of three search results.
   */
  function Tiers(entries: map<string, Entry>, current: Option<string>, query: string, now: int, engines: Engines): (f: Resolution)
    ensures Truthy(f.url) ==>
      (f.url == current || f.url == CachedFirst(entries, query, now) || f.url.value in SearchOutcome(entries, query, 3, now, engines).results)
  {
    if Truthy(current) then Resolution(current, entries)
    else
      var cached := CachedFirst(entries, query, now);
      if cached.Some? then Resolution(cached, entries)
      else
        var o := SearchOutcome(entries, query, 3, now, engines);
        Resolution(if o.results != [] then Some(o.results[0]) else current, o.entries)
  }

  /** Once a tier finds a URL no later tier runs: the engines are not consulted and the cache is unchanged. */
  lemma LaterTiersSkipped(entries: map<string, Entry>, current: Option<string>, query: string, now: int, engines: Engines, other: Engines)
    requires Truthy(current) || CachedFirst(entries, query, now).Some?
    ensures Tiers(entries, current, query, now, engines) == Tiers(entries, current, query, now, other)
    ensures Tiers(entries, current, query, now, engines).entries == entries
    ensures Truthy(Tiers(entries, current, query, now, engines).url)
  {
  }

  /** The official-site ladder: a direct address, else the cache, else the search. */
  function SiteOficial(entries: map<string, Entry>, orgao: string, net: Net, engines: Engines, now: int): Resolution {
    Tiers(entries, FirstAvailable(net, SiteDomains(Simplified(orgao))), orgao + " site oficial", now, engines)
  }

  /** A directly reachable address is the official site, whatever the cache and the engines hold. */
  lemma SiteDirectFirst(entries: map<string, Entry>, orgao: string, net: Net, engines: Engines, now: int, k: nat)
    requires k < 4 && IsAvailable(net, SiteDomains(Simplified(orgao))[k])
    requires forall j :: 0 <= j < k ==> !IsAvailable(net, SiteDomains(Simplified(orgao))[j])
    ensures SiteOficial(entries, orgao, net, engines, now) == Resolution(Some(SiteDomains(Simplified(orgao))[k]), entries)
  {
    var ds := SiteDomains(Simplified(orgao));
    var r := FirstAvailable(net, ds);
    var i :| 0 <= i < |ds| && ds[i] == r.value && forall j :: 0 <= j < i ==> !IsAvailable(net, ds[j]);
    assert i == k;
  }

  /** The first transparency link on the official site, when the site is known. */
  function PortalOnSite(net: Net, site: Option<string>): Option<string> {
    if Truthy(site) then
      var links := TransparencyLinks(net, site.value);
      if links != [] then Some(links[0].url) else None
    else None
  }

  /** The portal ladder: a link on the site, else a direct address, else the cache, else the search. */
  function Portal(entries: map<string, Entry>, orgao: string, site: Option<string>, net: Net, engines: Engines, now: int): Resolution {
    var first := PortalOnSite(net, site);
    var current := if Truthy(first) then first else
      var direct := FirstAvailable(net, PortalDomains(Simplified(orgao)));
      if direct.Some? then direct else first;
    Tiers(entries, current, orgao + " portal transparência", now, engines)
  }

  /** A transparency link on the official site is the portal: no address is probed and the cache is untouched. */
  lemma PortalSiteLinkFirst(entries: map<string, Entry>, orgao: string, site: Option<string>, net: Net, engines: Engines, now: int, other: Net)
    requires Truthy(site) && TransparencyLinks(net, site.value) != [] && TransparencyLinks(net, site.value)[0].url != ""
    requires TransparencyLinks(other, site.value) == TransparencyLinks(net, site.value)
    ensures Portal(entries, orgao, site, net, engines, now) == Resolution(Some(TransparencyLinks(net, site.value)[0].url), entries)
    ensures Portal(entries, orgao, site, net, engines, now) == Portal(entries, orgao, site, other, engines, now)
  {
  }

  // ---------------------------------------------------------------------
  // executar_scraping: one question
  // ---------------------------------------------------------------------

  /** An entry of the question catalogue. */
  datatype Question = Question(id: string, pergunta: string, classificacao: string, fundamentacao: string)

  /** The record streamed for one question. */
  datatype Record = Record(
    id: string, pergunta: string, classificacao: string, fundamentacao: string,
    atende: bool, disponibilidade: bool, atualidade: bool,
    serieHistorica: bool, gravacaoRelatorios: bool, filtroPesquisa: bool,
    linkEvidencia: Option<string>, observacao: Option<string>)

  /** The address checked for a question before any fallback: the site, the portal for portal questions, or none. */
  function Target(pergunta: string, site: Option<string>, portal: Option<string>): (r: Option<string>)
    ensures Truthy(site) && !Contains(Lower(pergunta), "portal da transparência") ==> r == site
    ensures Truthy(site) && Contains(Lower(pergunta), "sítio oficial") ==> r == site
    ensures Truthy(portal) && Contains(Lower(pergunta), "portal da transparência") && !(Truthy(site) && Contains(Lower(pergunta), "sítio oficial")) ==> r == portal
    ensures !Truthy(site) && !(Truthy(portal) && Contains(Lower(pergunta), "portal da transparência")) ==> r.None?
  {
    var p := Lower(pergunta);
    if Contains(p, "sítio oficial") && Truthy(site) then site
    else if Contains(p, "portal da transparência") && Truthy(portal) then portal
    else if Truthy(site) then site
    else None
  }

  /** The record for a question checked at `url` (or without an address). */
  function MakeRecord(q: Question, orgao: string, url: Option<string>, net: Net): (r: Record)
    ensures r.id == q.id && r.pergunta == q.pergunta
    ensures Truthy(url) ==> r.disponibilidade && r.atualidade && (r.linkEvidencia == url <==> r.atende) && (r.observacao.None? <==> r.atende)
    ensures Truthy(url) ==> (r.atende <==> VerificarItem(net, url.value, q.pergunta))
    ensures !Truthy(url) ==> !r.atende && !r.disponibilidade && !r.atualidade && r.linkEvidencia.None? && r.observacao.Some?
    ensures !r.serieHistorica && !r.gravacaoRelatorios && !r.filtroPesquisa
  {
    if Truthy(url) then
      var atende := VerificarItem(net, url.value, q.pergunta);
      Record(q.id, q.pergunta, q.classificacao, q.fundamentacao, atende, true, true, false, false, false,
        if atende then url else None,
        if atende then None else Some("Informação não encontrada para " + orgao + " em " + url.value))
    else
      Record(q.id, q.pergunta, q.classificacao, q.fundamentacao, false, false, false, false, false, false,
        None, Some("Não foi possível encontrar informações para " + orgao))
  }

  /** The record for one question and the cache afterwards. */
  datatype Asked = Asked(record: Record, entries: map<string, Entry>)

  /** One question: the target, else the question's own cache entry, else its own search; then the record. */
  function Ask(entries: map<string, Entry>, orgao: string, q: Question, site: Option<string>, portal: Option<string>,
               net: Net, engines: Engines, now: int): Asked {
    var f := Tiers(entries, Target(q.pergunta, site, portal), q.pergunta + " " + orgao, now, engines);
    Asked(MakeRecord(q, orgao, f.url, net), f.entries)
  }

  // ---------------------------------------------------------------------
  // executar_scraping: the message stream
  // ---------------------------------------------------------------------

  /** A queued message: a status with its progress (and the current question), an error, a record, or the end. */
  datatype Message =
    | Status(text: string, progress: real, current: Option<string>)
    | Failure(text: string, progress: real)
    | Result(record: Record)
    | Complete

  /** `20 + (i / total) * 80` */
  function QuestionProgress(i: nat, total: nat): real
    requires total > 0
  {
    20.0 + (i as real / total as real) * 80.0
  }

  /** Question progress grows with the question index and stays in [20, 100). */
  lemma QuestionProgressBounds(i: nat, j: nat, total: nat)
    requires i <= j < total
    ensures 20.0 <= QuestionProgress(i, total) <= QuestionProgress(j, total) < 100.0
  {
    var t := total as real;
    QuotientBounds(i as real, j as real, t);
  }

  /** For 0 <= a <= b < t, the quotients by t are ordered and below one. */
  lemma QuotientBounds(a: real, b: real, t: real)
    requires 0.0 <= a <= b < t
    ensures 0.0 <= a / t <= b / t < 1.0
  {
    var x, y := a / t, b / t;
    assert x * t == a && y * t == b;
    if y >= 1.0 {
      assert y * t - t == (y - 1.0) * t;
      MulNonneg(y - 1.0, t);
    }
  }

  /** A product of non-negative reals is non-negative. */
  lemma MulNonneg(p: real, q: real)
    requires 0.0 <= p && 0.0 <= q
    ensures 0.0 <= p * q
  {
  }

  /** The status line announcing question `i` (from zero). */
  function QuestionStatus(qs: seq<Question>, i: nat): Message
    requires i < |qs|
  {
    Status("Verificando item " + IntToString(i + 1) + " de " + IntToString(|qs|), QuestionProgress(i, |qs|), Some(qs[i].pergunta))
  }

  /** The records of the first questions and the cache afterwards. */
  datatype Answered = Answered(records: seq<Record>, entries: map<string, Entry>)

  /** The first `n` questions asked in catalogue order, threading the cache from one to the next. */
  function Answers(entries: map<string, Entry>, orgao: string, qs: seq<Question>, n: nat, site: Option<string>, portal: Option<string>,
                   net: Net, engines: Engines, now: int): (a: Answered)
    requires n <= |qs|
    ensures |a.records| == n
    ensures forall i :: 0 <= i < n ==> a.records[i].id == qs[i].id && a.records[i].pergunta == qs[i].pergunta
    decreases n
  {
    if n == 0 then Answered([], entries)
    else
      var prev := Answers(entries, orgao, qs, n - 1, site, portal, net, engines, now);
      var asked := Ask(prev.entries, orgao, qs[n - 1], site, portal, net, engines, now);
      Answered(prev.records + [asked.record], asked.entries)
  }

  /** One more question is asked against the cache the earlier ones left. */
  lemma AnswersNext(entries: map<string, Entry>, orgao: string, qs: seq<Question>, i: nat, site: Option<string>, portal: Option<string>,
                    net: Net, engines: Engines, now: int)
    requires i < |qs|
    ensures var prev := Answers(entries, orgao, qs, i, site, portal, net, engines, now);
      var asked := Ask(prev.entries, orgao, qs[i], site, portal, net, engines, now);
      Answers(entries, orgao, qs, i + 1, site, portal, net, engines, now) == Answered(prev.records + [asked.record], asked.entries)
  {
  }

  /** For each record so far, the status line of its question followed by the record. */
  function QuestionMessages(qs: seq<Question>, records: seq<Record>): (msgs: seq<Message>)
    requires |records| <= |qs|
    ensures |msgs| == 2 * |records|
  {
    if records == [] then []
    else QuestionMessages(qs, records[..|records| - 1]) + [QuestionStatus(qs, |records| - 1), Result(records[|records| - 1])]
  }

  function SiteStatus(site: Option<string>): Message {
    if Truthy(site) then Status("Site oficial encontrado: " + site.value, 10.0, None)
    else Status("Site oficial não encontrado", 10.0, None)
  }

  function PortalStatus(portal: Option<string>): Message {
    if Truthy(portal) then Status("Portal de transparência encontrado: " + portal.value, 20.0, None)
    else Status("Portal de transparência não encontrado", 20.0, None)
  }

  /** The four status lines before the questions. */
  function Opening(site: Option<string>, portal: Option<string>): seq<Message> {
    [Status("Buscando site oficial...", 5.0, None), SiteStatus(site),
     Status("Buscando portal de transparência...", 15.0, None), PortalStatus(portal)]
  }

  /** The two messages after the questions. */
  const Closing: seq<Message> := [Status("Avaliação concluída!", 100.0, None), Complete]

  /** The whole stream, given what the ladders found and the records. */
  function Stream(site: Option<string>, portal: Option<string>, qs: seq<Question>, records: seq<Record>): seq<Message>
    requires |records| == |qs|
  {
    Opening(site, portal) + QuestionMessages(qs, records) + Closing
  }

  /** The messages of a run and the cache afterwards. */
  datatype Step = Step(msgs: seq<Message>, entries: map<string, Entry>)

  /** `executar_scraping(orgao)` as a value: every message it queues, in order, and the cache afterwards. */
  function Run(entries: map<string, Entry>, orgao: string, qs: seq<Question>, net: Net, engines: Engines, now: int): Step {
    var site := SiteOficial(entries, orgao, net, engines, now);
    var portal := Portal(site.entries, orgao, site.url, net, engines, now);
    var answers := Answers(portal.entries, orgao, qs, |qs|, site.url, portal.url, net, engines, now);
    Step(Stream(site.url, portal.url, qs, answers.records), answers.entries)
  }

  // ---------------------------------------------------------------------
  // Properties of the stream
  // ---------------------------------------------------------------------

  predicate HasProgress(m: Message) {
    m.Status? || m.Failure?
  }

  /** Every progress value lies in [lo, hi]. */
  predicate ProgressWithin(msgs: seq<Message>, lo: real, hi: real) {
    forall i :: 0 <= i < |msgs| && HasProgress(msgs[i]) ==> lo <= msgs[i].progress <= hi
  }

  /** Progress values never go down along the stream. */
  predicate ProgressSorted(msgs: seq<Message>) {
    forall i, j :: 0 <= i < j < |msgs| && HasProgress(msgs[i]) && HasProgress(msgs[j]) ==> msgs[i].progress <= msgs[j].progress
  }

  lemma SortedConcat(a: seq<Message>, b: seq<Message>, lo: real, mid: real, hi: real)
    requires lo <= mid <= hi
    requires ProgressSorted(a) && ProgressWithin(a, lo, mid)
    requires ProgressSorted(b) && ProgressWithin(b, mid, hi)
    ensures ProgressSorted(a + b) && ProgressWithin(a + b, lo, hi)
  {
    var c := a + b;
    forall i, j | 0 <= i < j < |c| && HasProgress(c[i]) && HasProgress(c[j]) ensures c[i].progress <= c[j].progress {
      if j < |a| {
        assert c[i] == a[i] && c[j] == a[j];
      } else if i >= |a| {
        assert c[i] == b[i - |a|] && c[j] == b[j - |a|];
      } else {
        assert c[i] == a[i] && c[j] == b[j - |a|];
      }
    }
    forall i | 0 <= i < |c| && HasProgress(c[i]) ensures lo <= c[i].progress <= hi {
      if i < |a| {
        assert c[i] == a[i];
      } else {
        assert c[i] == b[i - |a|];
      }
    }
  }

  /** The question part of the stream is sorted and stays between 20 and the progress of the last question asked. */
  lemma {:induction false} QuestionsProgress(qs: seq<Question>, records: seq<Record>)
    requires 0 < |records| <= |qs|
    ensures var msgs := QuestionMessages(qs, records);
      ProgressSorted(msgs) && ProgressWithin(msgs, 20.0, QuestionProgress(|records| - 1, |qs|))
    decreases |records|
  {
    var n := |records|;
    var prev := records[..n - 1];
    var tail := [QuestionStatus(qs, n - 1), Result(records[n - 1])];
    QuestionProgressBounds(n - 1, n - 1, |qs|);
    assert ProgressSorted(tail) && ProgressWithin(tail, QuestionProgress(n - 1, |qs|), QuestionProgress(n - 1, |qs|));
    if n == 1 {
      assert QuestionMessages(qs, prev) == [];
      SortedConcat(QuestionMessages(qs, prev), tail, 20.0, 20.0, QuestionProgress(0, |qs|));
    } else {
      QuestionsProgress(qs, prev);
      QuestionProgressBounds(n - 2, n - 1, |qs|);
      SortedConcat(QuestionMessages(qs, prev), tail, 20.0, QuestionProgress(n - 2, |qs|), QuestionProgress(n - 1, |qs|));
    }
  }

  /** The opening messages report 5, 10, 15 and 20 in that order. */
  lemma OpeningProgress(site: Option<string>, portal: Option<string>)
    ensures ProgressSorted(Opening(site, portal)) && ProgressWithin(Opening(site, portal), 5.0, 20.0)
  {
  }

  /** The closing messages report 100. */
  lemma ClosingProgress()
    ensures ProgressSorted(Closing) && ProgressWithin(Closing, 100.0, 100.0)
  {
  }

  /** Progress runs 5, 10, 15, 20, then per question, then 100: never decreasing and never above 100. */
  lemma StreamProgress(site: Option<string>, portal: Option<string>, qs: seq<Question>, records: seq<Record>)
    requires |records| == |qs|
    ensures ProgressSorted(Stream(site, portal, qs, records)) && ProgressWithin(Stream(site, portal, qs, records), 5.0, 100.0)
  {
    var head := Opening(site, portal);
    var questions := QuestionMessages(qs, records);
    OpeningProgress(site, portal);
    ClosingProgress();
    if |qs| > 0 {
      QuestionsProgress(qs, records);
      QuestionProgressBounds(|qs| - 1, |qs| - 1, |qs|);
      SortedConcat(head, questions, 5.0, 20.0, QuestionProgress(|qs| - 1, |qs|));
      SortedConcat(head + questions, Closing, 5.0, QuestionProgress(|qs| - 1, |qs|), 100.0);
    } else {
      assert questions == [];
      SortedConcat(head, questions, 5.0, 20.0, 20.0);
      SortedConcat(head + questions, Closing, 5.0, 20.0, 100.0);
    }
  }

  /** Every evaluation run reports progress that never decreases and stays within 5 and 100. */
  lemma RunProgress(entries: map<string, Entry>, orgao: string, qs: seq<Question>, net: Net, engines: Engines, now: int)
    ensures ProgressSorted(Run(entries, orgao, qs, net, engines, now).msgs)
    ensures ProgressWithin(Run(entries, orgao, qs, net, engines, now).msgs, 5.0, 100.0)
  {
    var site := SiteOficial(entries, orgao, net, engines, now);
    var portal := Portal(site.entries, orgao, site.url, net, engines, now);
    var answers := Answers(portal.entries, orgao, qs, |qs|, site.url, portal.url, net, engines, now);
    StreamProgress(site.url, portal.url, qs, answers.records);
  }

  /** The record of question `i` sits right after its status line. */
  lemma {:induction false} QuestionMessagesAt(qs: seq<Question>, records: seq<Record>, i: nat)
    requires i < |records| <= |qs|
    ensures var msgs := QuestionMessages(qs, records);
      msgs[2 * i] == QuestionStatus(qs, i) && msgs[2 * i + 1] == Result(records[i])
    decreases |records|
  {
    var n := |records|;
    if i < n - 1 {
      QuestionMessagesAt(qs, records[..n - 1], i);
    }
  }

  /** The question part of the stream never holds the completion event. */
  lemma {:induction false} QuestionMessagesIncomplete(qs: seq<Question>, records: seq<Record>)
    requires |records| <= |qs|
    ensures Complete !in QuestionMessages(qs, records)
    decreases |records|
  {
    if records != [] {
      QuestionMessagesIncomplete(qs, records[..|records| - 1]);
    }
  }

  /** Question `i` has its status line at position 4 + 2i of the stream and its record right after. */
  lemma StreamAt(site: Option<string>, portal: Option<string>, qs: seq<Question>, records: seq<Record>, i: nat)
    requires |records| == |qs| && i < |qs|
    ensures var msgs := Stream(site, portal, qs, records);
      |msgs| == 2 * |qs| + 6 && msgs[4 + 2 * i] == QuestionStatus(qs, i) && msgs[5 + 2 * i] == Result(records[i])
  {
    var head := Opening(site, portal);
    var questions := QuestionMessages(qs, records);
    QuestionMessagesAt(qs, records, i);
    MiddleAt(head, questions, Closing, 2 * i);
    MiddleAt(head, questions, Closing, 2 * i + 1);
  }

  /**
   * The stream holds, after the four opening lines, a status line and a
   * record for each question in catalogue order.
   */
  lemma StreamRecords(site: Option<string>, portal: Option<string>, qs: seq<Question>, records: seq<Record>)
    requires |records| == |qs|
    ensures var msgs := Stream(site, portal, qs, records);
      |msgs| == 2 * |qs| + 6 &&
      forall i :: 0 <= i < |qs| ==> msgs[4 + 2 * i] == QuestionStatus(qs, i) && msgs[5 + 2 * i] == Result(records[i])
  {
    forall i | 0 <= i < |qs| ensures Stream(site, portal, qs, records)[4 + 2 * i] == QuestionStatus(qs, i) && Stream(site, portal, qs, records)[5 + 2 * i] == Result(records[i]) {
      StreamAt(site, portal, qs, records, i);
    }
  }

  /** The stream ends with the completion event, which appears nowhere else. */
  lemma StreamCompletesOnce(site: Option<string>, portal: Option<string>, qs: seq<Question>, records: seq<Record>)
    requires |records| == |qs|
    ensures var msgs := Stream(site, portal, qs, records);
      msgs[|msgs| - 1] == Complete && forall i :: 0 <= i < |msgs| - 1 ==> msgs[i] != Complete
  {
    var msgs := Stream(site, portal, qs, records);
    var questions := QuestionMessages(qs, records);
    QuestionMessagesIncomplete(qs, records);
    forall i | 0 <= i < |msgs| - 1 ensures msgs[i] != Complete {
      if 4 <= i < 4 + |questions| {
        assert msgs[i] == questions[i - 4];
      }
    }
  }

  /** A run yields one record per question, for that question, in catalogue order, and then completes. */
  lemma RunRecords(entries: map<string, Entry>, orgao: string, qs: seq<Question>, net: Net, engines: Engines, now: int)
    ensures var msgs := Run(entries, orgao, qs, net, engines, now).msgs;
      |msgs| == 2 * |qs| + 6 && msgs[|msgs| - 1] == Complete && (forall i :: 0 <= i < |msgs| - 1 ==> msgs[i] != Complete) &&
      forall i :: 0 <= i < |qs| ==> msgs[5 + 2 * i].Result? && msgs[5 + 2 * i].record.id == qs[i].id
  {
    var site := SiteOficial(entries, orgao, net, engines, now);
    var portal := Portal(site.entries, orgao, site.url, net, engines, now);
    var answers := Answers(portal.entries, orgao, qs, |qs|, site.url, portal.url, net, engines, now);
    StreamRecords(site.url, portal.url, qs, answers.records);
    StreamCompletesOnce(site.url, portal.url, qs, answers.records);
  }

  // ---------------------------------------------------------------------
  // The back end's state
  // ---------------------------------------------------------------------

  /** The answer to a start request. */
  datatype StartReply = AlreadyRunning | MissingOrgao | Started(totalPerguntas: nat)

  /** The process-wide state: `scraping_em_andamento`, `resultados_queue` and the scraper's search cache. */
  class Backend {
    var busy: bool
    var queue: seq<Message>
    const cache: Cache

    constructor(c: Cache)
      ensures !busy && queue == [] && cache == c
    {
      busy := false;
      queue := [];
      cache := c;
    }

    /**
     * `avaliar_transparencia()`: refuse while a run is in progress or without
     * an `orgao`; otherwise drain the queue and raise the flag before the
     * worker starts.
     */
    method Start(orgao: Option<string>, questions: seq<Question>) returns (r: StartReply)
      modifies this
      ensures old(busy) ==> r == AlreadyRunning && busy && queue == old(queue)
      ensures !old(busy) && !Truthy(orgao) ==> r == MissingOrgao && !busy && queue == old(queue)
      ensures !old(busy) && Truthy(orgao) ==> r == Started(|questions|) && busy && queue == []
    {
      if busy {
        return AlreadyRunning;
      }
      if !Truthy(orgao) {
        return MissingOrgao;
      }
      while queue != []
        invariant !busy
        decreases |queue|
      {
        queue := queue[1..];
      }
      busy := true;
      return Started(|questions|);
    }

    /** Enqueue one message. */
    method Put(m: Message)
      modifies this
      ensures queue == old(queue) + [m] && busy == old(busy)
    {
      queue := queue + [m];
    }

    /** The tail of a ladder, tier by tier, against the scraper's cache. */
    method ResolveTiers(current: Option<string>, query: string, now: int, engines: Engines) returns (url: Option<string>)
      modifies cache
      ensures Resolution(url, cache.entries) == Tiers(old(cache.entries), current, query, now, engines)
    {
      if Truthy(current) {
        return current;
      }
      var cached := cache.Lookup(query, now);
      if cached.Some? && cached.value != [] && cached.value[0] != "" {
        return Some(cached.value[0]);
      }
      var links := cache.Search(query, 3, now, engines);
      if links != [] {
        return Some(links[0]);
      }
      return current;
    }

    /** The official-site ladder. */
    method FindSite(orgao: string, net: Net, engines: Engines, now: int) returns (site: Option<string>)
      modifies cache
      ensures Resolution(site, cache.entries) == SiteOficial(old(cache.entries), orgao, net, engines, now)
    {
      var direct := ProbeAvailable(net, SiteDomains(Simplified(orgao)));
      site := ResolveTiers(direct, orgao + " site oficial", now, engines);
    }

    /** The portal ladder. */
    method FindPortal(orgao: string, site: Option<string>, net: Net, engines: Engines, now: int) returns (portal: Option<string>)
      modifies cache
      ensures Resolution(portal, cache.entries) == Portal(old(cache.entries), orgao, site, net, engines, now)
    {
      var first: Option<string> := None;
      if Truthy(site) {
        var links := FindTransparencyLinks(net, site.value);
        if links != [] {
          first := Some(links[0].url);
        }
      }
      var current := first;
      if !Truthy(first) {
        var direct := ProbeAvailable(net, PortalDomains(Simplified(orgao)));
        if direct.Some? {
          current := direct;
        }
      }
      portal := ResolveTiers(current, orgao + " portal transparência", now, engines);
    }

    /** One question: its address, then its record. */
    method AskQuestion(orgao: string, q: Question, site: Option<string>, portal: Option<string>, net: Net, engines: Engines, now: int)
      returns (record: Record)
      modifies cache
      ensures Asked(record, cache.entries) == Ask(old(cache.entries), orgao, q, site, portal, net, engines, now)
    {
      var target := Target(q.pergunta, site, portal);
      var url := ResolveTiers(target, q.pergunta + " " + orgao, now, engines);
      record := MakeRecord(q, orgao, url, net);
    }

    /**
     * `executar_scraping(orgao)`: the two ladders, one status line and one
     * record per question, the closing status, and in the end the completion
     * event with the flag cleared.
     */
    method ExecutarScraping(orgao: string, qs: seq<Question>, net: Net, engines: Engines, now: int)
      modifies this, cache
      ensures queue == old(queue) + Run(old(cache.entries), orgao, qs, net, engines, now).msgs
      ensures cache.entries == Run(old(cache.entries), orgao, qs, net, engines, now).entries
      ensures !busy
    {
      ghost var q0 := queue;
      ghost var e0 := cache.entries;
      var site, portal := Ladders(orgao, net, engines, now);
      ghost var e2 := cache.entries;
      AskAll(orgao, qs, site, portal, net, engines, now);
      ghost var answers := Answers(e2, orgao, qs, |qs|, site, portal, net, engines, now);
      RunSteps(e0, orgao, qs, net, engines, now, site, portal, e2);
      Finish();
      AppendThree(q0, Opening(site, portal), QuestionMessages(qs, answers.records), Closing);
    }

    /** The closing status, the completion event, and the flag cleared. */
    method Finish()
      modifies this
      ensures queue == old(queue) + Closing && !busy
    {
      Put(Status("Avaliação concluída!", 100.0, None));
      Put(Complete);
      busy := false;
    }

    /** The two ladders with their status lines. */
    method Ladders(orgao: string, net: Net, engines: Engines, now: int) returns (site: Option<string>, portal: Option<string>)
      modifies this, cache
      ensures queue == old(queue) + Opening(site, portal) && busy == old(busy)
      ensures Resolution(site, SiteOficial(old(cache.entries), orgao, net, engines, now).entries) == SiteOficial(old(cache.entries), orgao, net, engines, now)
      ensures Resolution(portal, cache.entries) == Portal(SiteOficial(old(cache.entries), orgao, net, engines, now).entries, orgao, site, net, engines, now)
    {
      ghost var q0 := queue;
      ghost var e0 := cache.entries;
      site := SiteStep(orgao, net, engines, now);
      ghost var q1 := queue;
      ghost var r1 := SiteOficial(e0, orgao, net, engines, now);
      assert cache.entries == r1.entries;
      portal := PortalStep(orgao, site, net, engines, now);
      assert queue == q1 + [Status("Buscando portal de transparência...", 15.0, None), PortalStatus(portal)];
      assert q1 == q0 + [Status("Buscando site oficial...", 5.0, None), SiteStatus(site)];
    }

    /** The official-site ladder between its two status lines. */
    method SiteStep(orgao: string, net: Net, engines: Engines, now: int) returns (site: Option<string>)
      modifies this, cache
      ensures queue == old(queue) + [Status("Buscando site oficial...", 5.0, None), SiteStatus(site)] && busy == old(busy)
      ensures Resolution(site, cache.entries) == SiteOficial(old(cache.entries), orgao, net, engines, now)
    {
      Put(Status("Buscando site oficial...", 5.0, None));
      site := FindSite(orgao, net, engines, now);
      Put(SiteStatus(site));
    }

    /** The portal ladder between its two status lines. */
    method PortalStep(orgao: string, site: Option<string>, net: Net, engines: Engines, now: int) returns (portal: Option<string>)
      modifies this, cache
      ensures queue == old(queue) + [Status("Buscando portal de transparência...", 15.0, None), PortalStatus(portal)] && busy == old(busy)
      ensures Resolution(portal, cache.entries) == Portal(old(cache.entries), orgao, site, net, engines, now)
    {
      Put(Status("Buscando portal de transparência...", 15.0, None));
      portal := FindPortal(orgao, site, net, engines, now);
      Put(PortalStatus(portal));
    }

    /** The loop over the questions: a status line, the question's record, and the next one. */
    method AskAll(orgao: string, qs: seq<Question>, site: Option<string>, portal: Option<string>, net: Net, engines: Engines, now: int)
      modifies this, cache
      ensures queue == old(queue) + QuestionMessages(qs, Answers(old(cache.entries), orgao, qs, |qs|, site, portal, net, engines, now).records)
      ensures cache.entries == Answers(old(cache.entries), orgao, qs, |qs|, site, portal, net, engines, now).entries
      ensures busy == old(busy)
    {
      ghost var entries0 := cache.entries;
      ghost var queue0 := queue;
      ghost var records: seq<Record> := [];
      var i := 0;
      while i < |qs|
        invariant 0 <= i <= |qs| && busy == old(busy)
        invariant Answered(records, cache.entries) == Answers(entries0, orgao, qs, i, site, portal, net, engines, now)
        invariant queue == queue0 + QuestionMessages(qs, records)
      {
        var record := AskNext(orgao, qs, i, site, portal, net, engines, now, entries0, records);
        assert (records + [record])[..i] == records;
        assert QuestionMessages(qs, records + [record]) == QuestionMessages(qs, records) + [QuestionStatus(qs, i), Result(record)];
        AppendAssoc(queue0, QuestionMessages(qs, records), [QuestionStatus(qs, i), Result(record)]);
        records := records + [record];
        i := i + 1;
      }
    }

    /** Question `i`: its status line, then its record. */
    method AskNext(orgao: string, qs: seq<Question>, i: nat, site: Option<string>, portal: Option<string>, net: Net, engines: Engines, now: int,
                   ghost entries0: map<string, Entry>, ghost records: seq<Record>)
      returns (record: Record)
      requires i < |qs|
      requires Answered(records, cache.entries) == Answers(entries0, orgao, qs, i, site, portal, net, engines, now)
      modifies this, cache
      ensures queue == old(queue) + [QuestionStatus(qs, i), Result(record)] && busy == old(busy)
      ensures Answered(records + [record], cache.entries) == Answers(entries0, orgao, qs, i + 1, site, portal, net, engines, now)
    {
      AnswersNext(entries0, orgao, qs, i, site, portal, net, engines, now);
      ghost var q0 := queue;
      var status := QuestionStatus(qs, i);
      Put(status);
      record := AskQuestion(orgao, qs[i], site, portal, net, engines, now);
      Put(Result(record));
      AppendAssoc(q0, [status], [Result(record)]);
    }
  }

  /** A run is the two ladders, then the questions asked against the cache they leave. */
  lemma RunSteps(e0: map<string, Entry>, orgao: string, qs: seq<Question>, net: Net, engines: Engines, now: int,
                 site: Option<string>, portal: Option<string>, e2: map<string, Entry>)
    requires Resolution(site, SiteOficial(e0, orgao, net, engines, now).entries) == SiteOficial(e0, orgao, net, engines, now)
    requires Resolution(portal, e2) == Portal(SiteOficial(e0, orgao, net, engines, now).entries, orgao, site, net, engines, now)
    ensures var answers := Answers(e2, orgao, qs, |qs|, site, portal, net, engines, now);
      Run(e0, orgao, qs, net, engines, now) ==
        Step(Opening(site, portal) + QuestionMessages(qs, answers.records) + Closing, answers.entries)
  {
  }

  lemma MiddleAt(a: seq<Message>, b: seq<Message>, c: seq<Message>, k: nat)
    requires k < |b|
    ensures (a + b + c)[|a| + k] == b[k]
  {
  }

  lemma AppendThree(q: seq<Message>, a: seq<Message>, b: seq<Message>, c: seq<Message>)
    ensures q + a + b + c == q + (a + b + c)
  {
  }

  /** The direct-address loop of a ladder: the first address that answers 200. */
  method ProbeAvailable(net: Net, urls: seq<string>) returns (r: Option<string>)
    ensures r == FirstAvailable(net, urls)
  {
    var i := 0;
    while i < |urls|
      invariant 0 <= i <= |urls|
      invariant FirstAvailable(net, urls) == FirstAvailable(net, urls[i..])
    {
      assert urls[i..][1..] == urls[i + 1..];
      if IsAvailable(net, urls[i]) {
        return Some(urls[i]);
      }
      i := i + 1;
    }
    return None;
  }
}
