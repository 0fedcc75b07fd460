/**
 * The static registry of well-known public bodies (backend/known_urls.py)
 * and the lookup that falls back on the Amazonas spreadsheet.
 */
module KnownUrls {
  import opened Base
  import opened AmazonasPortals

  /** A registry entry: the body's name and its URLs by type. */
  datatype Known = Known(name: string, urls: map<string, string>)

  /** `KNOWN_URLS`, in insertion order. */
  const Registry: seq<Known> := [
    Known("Tribunal de Contas do Estado do Amazonas",
      map["site_oficial" := "https://www.tce.am.gov.br/", "portal_transparencia" := "https://transparencia.tce.am.gov.br/"]),
    Known("TCE-AM",
      map["site_oficial" := "https://www.tce.am.gov.br/", "portal_transparencia" := "https://transparencia.tce.am.gov.br/"]),
    Known("Governo do Estado do Amazonas",
      map["site_oficial" := "https://www.am.gov.br/", "portal_transparencia" := "http://www.transparencia.am.gov.br/"]),
    Known("Assembleia Legislativa do Estado do Amazonas",
      map["site_oficial" := "https://www.aleam.gov.br/", "portal_transparencia" := "https://www.aleam.gov.br/transparencia/"]),
    Known("Tribunal de Justiça do Amazonas",
      map["site_oficial" := "https://www.tjam.jus.br/", "portal_transparencia" := "https://www.tjam.jus.br/index.php/transparencia"]),
    Known("Ministério Público do Estado do Amazonas",
      map["site_oficial" := "https://www.mpam.mp.br/", "portal_transparencia" := "https://www.mpam.mp.br/transparencia"]),
    Known("Defensoria Pública do Estado do Amazonas",
      map["site_oficial" := "https://defensoria.am.def.br/", "portal_transparencia" := "https://defensoria.am.def.br/portal-da-transparencia/"]),
    Known("Prefeitura de Manaus",
      map["site_oficial" := "https://www.manaus.am.gov.br/", "portal_transparencia" := "https://transparencia.manaus.am.gov.br/"])
  ]

  /** The exact test compares with the lower-cased entry name; the partial one accepts containment either way. */
  predicate NameMatch(e: Known, key: string, exact: bool) {
    var n := Lower(e.name);
    if exact then key == n else Contains(n, key) || Contains(key, n)
  }

  /** The index of the first entry that matches. */
  function FirstMatch(entries: seq<Known>, key: string, exact: bool): (k: Option<nat>)
    ensures k.Some? ==> k.value < |entries| && NameMatch(entries[k.value], key, exact)
    ensures forall j :: 0 <= j < |entries| && (k.None? || j < k.value) ==> !NameMatch(entries[j], key, exact)
  {
    if entries == [] then None
    else if NameMatch(entries[0], key, exact) then Some(0)
    else
      match FirstMatch(entries[1..], key, exact)
      case None => None
      case Some(j) => Some(j + 1)
  }

  /** `urls.get(tipo)` */
  function Get(urls: map<string, string>, tipo: string): (r: Option<string>)
    ensures r.Some? <==> tipo in urls
    ensures r.Some? ==> r.value == urls[tipo]
  {
    if tipo in urls then Some(urls[tipo]) else None
  }

  /** A registry's answer for a key: the first exact match, else the first partial match. */
  function RegistryLookup(entries: seq<Known>, key: string, tipo: string): (r: Option<Option<string>>)
    ensures r.None? <==> forall j :: 0 <= j < |entries| ==> !NameMatch(entries[j], key, true) && !NameMatch(entries[j], key, false)
  {
    match FirstMatch(entries, key, true)
    case Some(k) => Some(Get(entries[k].urls, tipo))
    case None =>
      match FirstMatch(entries, key, false)
      case Some(k) => Some(Get(entries[k].urls, tipo))
      case None => None
  }

  /** The lookup key: `orgao.lower().strip()`, with no accent folding. */
  function Key(orgao: string): string {
    Strip(Lower(orgao))
  }

  /**
   * `get_known_url(orgao, tipo)` with the spreadsheet's rows `sheet`: the
   * registry answers whenever an entry matches (even with `None`); otherwise
   * a truthy spreadsheet URL; otherwise, for a câmara, the spreadsheet's
   * `site_camara` URL.
   */
  function GetKnownUrlIn(entries: seq<Known>, orgao: string, tipo: string, sheet: Option<seq<Row>>): (r: Option<string>)
    ensures RegistryLookup(entries, Key(orgao), tipo).None? && r.Some? ==>
      r == GetUrlSpec(sheet, orgao, tipo) || r == GetUrlSpec(sheet, orgao, "site_camara")
  {
    var key := Key(orgao);
    match RegistryLookup(entries, key, tipo)
    case Some(answer) => answer
    case None =>
      var fromSheet := GetUrlSpec(sheet, orgao, tipo);
      if Truthy(fromSheet) then fromSheet
      else if Contains(key, "câmara") || Contains(key, "camara") then GetUrlSpec(sheet, orgao, "site_camara")
      else None
  }

  /** `get_known_url(orgao, tipo)` over `KNOWN_URLS`. */
  function GetKnownUrl(orgao: string, tipo: string, sheet: Option<seq<Row>>): Option<string> {
    GetKnownUrlIn(Registry, orgao, tipo, sheet)
  }

  /**
   * The first exact match answers, whatever earlier entries match partially:
   * every entry is tried exactly before any is tried partially.
   */
  lemma ExactBeforePartial(entries: seq<Known>, orgao: string, tipo: string, sheet: Option<seq<Row>>, k: nat)
    requires k < |entries| && Key(orgao) == Lower(entries[k].name)
    requires forall j :: 0 <= j < k ==> Key(orgao) != Lower(entries[j].name)
    ensures GetKnownUrlIn(entries, orgao, tipo, sheet) == Get(entries[k].urls, tipo)
  {
    var f := FirstMatch(entries, Key(orgao), true);
    assert f.Some?;
    assert f.value == k by {
      assert NameMatch(entries[f.value], Key(orgao), true);
    }
  }

  /** Without an exact match, the first entry that matches partially answers. */
  lemma FirstPartialAnswers(entries: seq<Known>, orgao: string, tipo: string, sheet: Option<seq<Row>>, k: nat)
    requires forall j :: 0 <= j < |entries| ==> Key(orgao) != Lower(entries[j].name)
    requires k < |entries| && NameMatch(entries[k], Key(orgao), false)
    requires forall j :: 0 <= j < k ==> !NameMatch(entries[j], Key(orgao), false)
    ensures GetKnownUrlIn(entries, orgao, tipo, sheet) == Get(entries[k].urls, tipo)
  {
  }

  /** Once a registry entry matches, the spreadsheet is never consulted. */
  lemma RegistryIgnoresSheet(entries: seq<Known>, orgao: string, tipo: string, s1: Option<seq<Row>>, s2: Option<seq<Row>>, k: nat)
    requires k < |entries| && (NameMatch(entries[k], Key(orgao), true) || NameMatch(entries[k], Key(orgao), false))
    ensures GetKnownUrlIn(entries, orgao, tipo, s1) == GetKnownUrlIn(entries, orgao, tipo, s2)
  {
    assert RegistryLookup(entries, Key(orgao), tipo).Some?;
  }

  /** Without a registry match, a truthy spreadsheet URL for the same type is the answer. */
  lemma SheetAnswers(entries: seq<Known>, orgao: string, tipo: string, sheet: Option<seq<Row>>)
    requires forall j :: 0 <= j < |entries| ==> !NameMatch(entries[j], Key(orgao), true) && !NameMatch(entries[j], Key(orgao), false)
    requires Truthy(GetUrlSpec(sheet, orgao, tipo))
    ensures GetKnownUrlIn(entries, orgao, tipo, sheet) == GetUrlSpec(sheet, orgao, tipo)
  {
  }

  /** Without a registry match or a truthy spreadsheet URL, a câmara falls back on the spreadsheet's `site_camara` URL. */
  lemma CamaraFallback(entries: seq<Known>, orgao: string, tipo: string, sheet: Option<seq<Row>>)
    requires forall j :: 0 <= j < |entries| ==> !NameMatch(entries[j], Key(orgao), true) && !NameMatch(entries[j], Key(orgao), false)
    requires !Truthy(GetUrlSpec(sheet, orgao, tipo))
    requires Contains(Key(orgao), "câmara") || Contains(Key(orgao), "camara")
    ensures GetKnownUrlIn(entries, orgao, tipo, sheet) == GetUrlSpec(sheet, orgao, "site_camara")
  {
  }

  /** A name that matches no entry, finds nothing in the spreadsheet and does not mention a câmara gives `None`. */
  lemma NothingFound(entries: seq<Known>, orgao: string, tipo: string, sheet: Option<seq<Row>>)
    requires forall j :: 0 <= j < |entries| ==> !NameMatch(entries[j], Key(orgao), true) && !NameMatch(entries[j], Key(orgao), false)
    requires !Truthy(GetUrlSpec(sheet, orgao, tipo))
    requires !Contains(Key(orgao), "câmara") && !Contains(Key(orgao), "camara")
    ensures GetKnownUrlIn(entries, orgao, tipo, sheet) == None
  {
  }

  /** The lookup key of "Prefeitura de Manaus" is its lower-case form. */
  lemma ManausKey()
    ensures Key("Prefeitura de Manaus") == "prefeitura de manaus"
  {
    var low := "prefeitura de manaus";
    ManausLower();
    assert LStrip(low) == low;
    assert RStrip(low) == low;
  }

  lemma ManausLower()
    ensures Lower("Prefeitura de Manaus") == "prefeitura de manaus"
  {
  }

  /** No entry before the last has, once lower-cased, the name "prefeitura de manaus". */
  lemma EarlierNamesDiffer(j: nat)
    requires j < 7
    ensures "prefeitura de manaus" != Lower(Registry[j].name)
  {
    assert |Lower(Registry[j].name)| == |Registry[j].name|;
    if j == 0 {} else if j == 1 {} else if j == 2 {} else if j == 3 {} else if j == 4 {} else if j == 5 {} else {}
  }

  /** "Prefeitura de Manaus" resolves to the city's official site from the registry. */
  lemma ManausOfficialSite(sheet: Option<seq<Row>>)
    ensures GetKnownUrl("Prefeitura de Manaus", "site_oficial", sheet) == Some("https://www.manaus.am.gov.br/")
  {
    ManausKey();
    forall j | 0 <= j < 7 ensures Key("Prefeitura de Manaus") != Lower(Registry[j].name) {
      EarlierNamesDiffer(j);
    }
    assert Lower(Registry[7].name) == "prefeitura de manaus";
    ExactBeforePartial(Registry, "Prefeitura de Manaus", "site_oficial", sheet, 7);
  }
}
