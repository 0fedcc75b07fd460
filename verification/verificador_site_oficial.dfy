/**
 * backend/verificador_site_oficial.py: decide whether a URL is a public
 * body's official site from its domain, its title and text, and the
 * elements official sites usually carry, collecting evidence on the way.
 */
module VerificadorSiteOficial {
  import opened Base
  import opened Html

  /** `padroes_dominio`: the official domain endings, matched at the very end of the URL. */
  const DomainSuffixes: seq<string> := [".gov.br", ".leg.br", ".jus.br", ".mp.br", ".edu.br", ".org.br"]

  /** `palavras_chave`: words that official sites tend to use. */
  const Keywords: seq<string> := ["prefeitura", "município", "municipal", "câmara", "assembleia", "governo",
                                  "secretaria", "tribunal", "ministério", "autarquia", "fundação", "instituto"]

  /** The outcome of one verification. */
  datatype Resultado = Resultado(status: string, observacoes: string, evidencias: seq<string>)

  /** The URL fetched: `http://` put in front when there is no scheme. */
  function AddHttp(url: string): (r: string)
    ensures HasScheme(r)
    ensures HasScheme(url) ==> r == url
    ensures IsSuffix(url, r)
  {
    if HasScheme(url) then url
    else
      var r := "http://" + url;
      assert r[..7] == "http://";
      assert r[|r| - |url|..] == url;
      r
  }

  /**
   * `re.search(r'\.gov\.br$', url, re.IGNORECASE)`: `$` matches at the end
   * of the string or just before a final newline.
   */
  predicate EndsWithDomain(url: string, suffix: string) {
    IsSuffix(suffix, Lower(url)) || IsSuffix(suffix + "\n", Lower(url))
  }

  /** Some suffix of the list ends the URL. */
  predicate AnyDomain(url: string, suffixes: seq<string>)
    decreases |suffixes|
  {
    suffixes != [] && (EndsWithDomain(url, suffixes[0]) || AnyDomain(url, suffixes[1..]))
  }

  predicate OfficialDomain(url: string) {
    AnyDomain(url, DomainSuffixes)
  }

  /** The keywords that occur in the content, in list order. */
  function FoundKeywords(content: string, words: seq<string>): (found: seq<string>)
    ensures forall w :: w in found <==> w in words && Contains(content, w)
  {
    if words == [] then []
    else
      var last := words[|words| - 1];
      var prev := FoundKeywords(content, words[..|words| - 1]);
      assert words == words[..|words| - 1] + [last];
      if Contains(content, last) then prev + [last] else prev
  }

  /** An image whose `alt` mentions a coat of arms, a logo or a symbol, in any case. */
  predicate HasEmblem(page: Page) {
    exists i :: 0 <= i < |page.imgAlts| && page.imgAlts[i].Some? &&
      var alt := Lower(page.imgAlts[i].value);
      Contains(alt, "brasão") || Contains(alt, "logo") || Contains(alt, "símbolo")
  }

  /** The official-site elements present on the page, in the order they are listed. */
  function Elements(page: Page): (found: seq<string>)
    ensures |found| <= 5
  {
    var content := Lower(page.text);
    (if HasEmblem(page) then ["Brasão/Logo"] else []) +
    (if page.hasNav || page.hasMenu then ["Menu de Acesso"] else []) +
    (if page.hasFooter then ["Rodapé com Informações"] else []) +
    (if Contains(content, "acesso à informação") || Contains(content, "e-sic") then ["Acesso à Informação"] else []) +
    (if Contains(content, "transparência") || Contains(content, "portal da transparência") then ["Transparência"] else [])
  }

  /** `', '.join(parts)` */
  function Join(parts: seq<string>): string {
    if |parts| == 0 then ""
    else if |parts| == 1 then parts[0]
    else parts[0] + ", " + Join(parts[1..])
  }

  predicate NameInTitle(page: Page, nome: string) {
    Contains(Lower(page.title), Lower(nome))
  }

  /** The final rule: the name in the title or at least two keywords, and at least three elements. */
  predicate ContentConvinces(page: Page, nome: string) {
    (NameInTitle(page, nome) || |FoundKeywords(Lower(page.text), Keywords)| >= 2) && |Elements(page)| >= 3
  }

  /** The evidence list: the domain, then the title, keyword and element checks that succeeded, in that order. */
  function Evidence(u: string, title: string, inTitle: bool, found: seq<string>, elementos: seq<string>): seq<string> {
    ["Domínio oficial: " + u] +
    (if inTitle then ["Nome do órgão encontrado no título: " + title] else []) +
    (if found != [] then ["Palavras-chave encontradas: " + Join(found)] else []) +
    (if elementos != [] then ["Elementos de site oficial encontrados: " + Join(elementos)] else [])
  }

  /** `verificar_site_oficial(url, nome_orgao)` as a value. */
  function Verificacao(net: Net, url: string, nome: string): Resultado {
    if url == "" then Resultado("Não Atende", "URL não fornecida.", [])
    else
      var u := AddHttp(url);
      var resp := net.get(u);
      if resp.Raised? then Resultado("Não Atende", "Erro ao acessar o site: ", [])
      else if resp.status != 200 then Resultado("Não Atende", "Site não acessível. Código de status: " + IntToString(resp.status), [])
      else if !OfficialDomain(u) then Resultado("Não Atende", "O site não possui um domínio oficial (.gov.br, .leg.br, etc.)", [])
      else Examined(u, resp.page, nome)
  }

  /** The verdict on a page that answered 200 from an official domain. */
  function Examined(u: string, page: Page, nome: string): Resultado {
    var evidencias := Evidence(u, page.title, NameInTitle(page, nome), FoundKeywords(Lower(page.text), Keywords), Elements(page));
    if ContentConvinces(page, nome) then
      Resultado("Atende", "Site verificado e confirmado como oficial de " + nome + ".", evidencias)
    else
      Resultado("Não Atende", "O site não apresenta características suficientes de um site oficial.", evidencias)
  }

  /** An empty URL is refused with its own message, without any request. */
  lemma EmptyUrl(net: Net, other: Net, nome: string)
    ensures Verificacao(net, "", nome) == Resultado("Não Atende", "URL não fornecida.", [])
    ensures Verificacao(net, "", nome) == Verificacao(other, "", nome)
  {
  }

  /** The page fetched is the URL with `http://` in front when it had no scheme, and a failed fetch refuses at once. */
  lemma FetchFailureRefuses(net: Net, url: string, nome: string)
    requires url != ""
    requires var resp := net.get(AddHttp(url)); resp.Raised? || resp.status != 200
    ensures Verificacao(net, url, nome).status == "Não Atende" && Verificacao(net, url, nome).evidencias == []
  {
  }

  /** A URL ending in "/" never has an official domain, because the suffix test runs on the whole URL. */
  lemma TrailingSlashRefused(net: Net, url: string, nome: string)
    requires url != "" && url[|url| - 1] == '/'
    ensures Verificacao(net, url, nome).status == "Não Atende"
  {
    TrailingSlashNotOfficial(url);
    NotOfficialRefused(net, url, nome);
  }

  /** Without an official domain the site is refused, whatever its content. */
  lemma NotOfficialRefused(net: Net, url: string, nome: string)
    requires !OfficialDomain(AddHttp(url))
    ensures Verificacao(net, url, nome).status == "Não Atende"
    ensures Verificacao(net, url, nome).evidencias == []
  {
    if url != "" {
      var resp := net.get(AddHttp(url));
      if resp.Response? && resp.status == 200 {
        assert Verificacao(net, url, nome) == Resultado("Não Atende", "O site não possui um domínio oficial (.gov.br, .leg.br, etc.)", []);
      }
    }
  }

  lemma TrailingSlashNotOfficial(url: string)
    requires url != "" && url[|url| - 1] == '/'
    ensures !OfficialDomain(AddHttp(url))
  {
    var u := AddHttp(url);
    assert u[|u| - 1] == '/';
    assert Lower(u)[|u| - 1] == '/';
    SuffixesEndInLetters();
    NoDomainEndsInSlash(u, DomainSuffixes);
  }

  /** Every official ending closes on a letter. */
  lemma SuffixesEndInLetters()
    ensures forall i :: 0 <= i < |DomainSuffixes| ==> |DomainSuffixes[i]| > 0 && DomainSuffixes[i][|DomainSuffixes[i]| - 1] != '/'
  {
    forall i | 0 <= i < |DomainSuffixes|
      ensures |DomainSuffixes[i]| > 0 && DomainSuffixes[i][|DomainSuffixes[i]| - 1] != '/'
    {
      assert DomainSuffixes[i][|DomainSuffixes[i]| - 1] == 'r';
    }
  }

  lemma {:induction false} NoDomainEndsInSlash(u: string, suffixes: seq<string>)
    requires |u| > 0 && Lower(u)[|u| - 1] == '/'
    requires forall i :: 0 <= i < |suffixes| ==> |suffixes[i]| > 0 && suffixes[i][|suffixes[i]| - 1] != '/'
    ensures !AnyDomain(u, suffixes)
    decreases |suffixes|
  {
    if suffixes != [] {
      var s := suffixes[0];
      var l := Lower(u);
      assert !IsSuffix(s, l) by {
        if |s| <= |l| {
          assert l[|l| - |s|..][|s| - 1] == l[|l| - 1];
        }
      }
      assert !IsSuffix(s + "\n", l) by {
        if |s| + 1 <= |l| {
          assert l[|l| - |s| - 1..][|s|] == l[|l| - 1];
          assert (s + "\n")[|s|] == '\n';
        }
      }
      NoDomainEndsInSlash(u, suffixes[1..]);
    }
  }

  /** The site is accepted exactly when it answers 200, has an official domain and its content convinces. */
  lemma AtendeIff(net: Net, url: string, nome: string)
    ensures Verificacao(net, url, nome).status == "Atende" <==>
      url != "" && net.get(AddHttp(url)).Response? && net.get(AddHttp(url)).status == 200 &&
      OfficialDomain(AddHttp(url)) && ContentConvinces(net.get(AddHttp(url)).page, nome)
  {
  }

  /** Every piece of evidence records a check that succeeded. */
  lemma EvidenceItems(u: string, title: string, inTitle: bool, found: seq<string>, elementos: seq<string>, e: string)
    requires e in Evidence(u, title, inTitle, found, elementos)
    ensures e == "Domínio oficial: " + u ||
      (inTitle && e == "Nome do órgão encontrado no título: " + title) ||
      (found != [] && e == "Palavras-chave encontradas: " + Join(found)) ||
      (elementos != [] && e == "Elementos de site oficial encontrados: " + Join(elementos))
  {
  }

  /** Evidence is only gathered once the site answered from an official domain, and each piece records a check that succeeded. */
  lemma EvidenceSound(net: Net, url: string, nome: string, e: string)
    requires e in Verificacao(net, url, nome).evidencias
    ensures url != "" && net.get(AddHttp(url)).Response? && OfficialDomain(AddHttp(url))
    ensures var page := net.get(AddHttp(url)).page;
      e == "Domínio oficial: " + AddHttp(url) ||
      (NameInTitle(page, nome) && e == "Nome do órgão encontrado no título: " + page.title) ||
      (FoundKeywords(Lower(page.text), Keywords) != [] && e == "Palavras-chave encontradas: " + Join(FoundKeywords(Lower(page.text), Keywords))) ||
      (Elements(page) != [] && e == "Elementos de site oficial encontrados: " + Join(Elements(page)))
  {
    var page := net.get(AddHttp(url)).page;
    EvidenceItems(AddHttp(url), page.title, NameInTitle(page, nome), FoundKeywords(Lower(page.text), Keywords), Elements(page), e);
  }

  /** `verificar_site_oficial(url, nome_orgao)`: each check in turn, appending its evidence when it succeeds. */
  method VerificarSiteOficial(net: Net, url: string, nome: string) returns (r: Resultado)
    ensures r == Verificacao(net, url, nome)
  {
    r := Resultado("Não Atende", "", []);
    if url == "" {
      r := r.(observacoes := "URL não fornecida.");
      return;
    }
    var u := url;
    if !HasScheme(u) {
      u := "http://" + u;
    }
    var response := net.get(u);
    if response.Raised? {
      r := r.(observacoes := "Erro ao acessar o site: ");
      return;
    }
    if response.status != 200 {
      r := r.(observacoes := "Site não acessível. Código de status: " + IntToString(response.status));
      return;
    }
    var dominio := CheckDomain(u);
    if !dominio {
      r := r.(observacoes := "O site não possui um domínio oficial (.gov.br, .leg.br, etc.)");
      return;
    }
    r := ExaminePage(u, response.page, nome, dominio);
  }

  /** The content checks on a page that answered from an official domain. */
  method ExaminePage(u: string, page: Page, nome: string, dominio: bool) returns (r: Resultado)
    requires dominio
    ensures r == Examined(u, page, nome)
  {
    var evidencias, nomeEncontrado, encontradas, elementos := GatherEvidence(u, page, nome);
    if dominio && (nomeEncontrado || |encontradas| >= 2) && |elementos| >= 3 {
      r := Resultado("Atende", "Site verificado e confirmado como oficial de " + nome + ".", evidencias);
    } else {
      r := Resultado("Não Atende", "O site não apresenta características suficientes de um site oficial.", evidencias);
    }
  }

  /** The title, keyword and element checks, each appending its evidence when it succeeds. */
  method GatherEvidence(u: string, page: Page, nome: string)
    returns (evidencias: seq<string>, nomeEncontrado: bool, encontradas: seq<string>, elementos: seq<string>)
    ensures nomeEncontrado == NameInTitle(page, nome)
    ensures encontradas == FoundKeywords(Lower(page.text), Keywords)
    ensures elementos == Elements(page)
    ensures evidencias == Evidence(u, page.title, nomeEncontrado, encontradas, elementos)
  {
    evidencias := ["Domínio oficial: " + u];
    nomeEncontrado := NameInTitle(page, nome);
    if nomeEncontrado {
      evidencias := evidencias + ["Nome do órgão encontrado no título: " + page.title];
    }
    encontradas := CollectKeywords(Lower(page.text));
    if encontradas != [] {
      evidencias := evidencias + ["Palavras-chave encontradas: " + Join(encontradas)];
    }
    elementos := Elements(page);
    if elementos != [] {
      evidencias := evidencias + ["Elementos de site oficial encontrados: " + Join(elementos)];
    }
  }

  /** The loop over the domain endings, stopping at the first that matches. */
  method CheckDomain(u: string) returns (dominio: bool)
    ensures dominio == OfficialDomain(u)
  {
    dominio := false;
    var i := 0;
    while i < |DomainSuffixes|
      invariant 0 <= i <= |DomainSuffixes|
      invariant OfficialDomain(u) == AnyDomain(u, DomainSuffixes[i..])
    {
      assert DomainSuffixes[i..][1..] == DomainSuffixes[i + 1..];
      if EndsWithDomain(u, DomainSuffixes[i]) {
        dominio := true;
        break;
      }
      i := i + 1;
    }
  }

  /** The loop over the keywords, keeping those the content holds. */
  method CollectKeywords(content: string) returns (found: seq<string>)
    ensures found == FoundKeywords(content, Keywords)
  {
    found := [];
    for i := 0 to |Keywords|
      invariant found == FoundKeywords(content, Keywords[..i])
    {
      assert Keywords[..i + 1][..i] == Keywords[..i];
      if Contains(content, Keywords[i]) {
        found := found + [Keywords[i]];
      }
    }
    assert Keywords[..|Keywords|] == Keywords;
  }
}
