/** The table of known links per managing unit (UG) of backend/ug_config.py. */
module UgConfig {
  import opened Base

  /** The links known for each UG acronym, keyed in lower case. */
  const UgLinks: map<string, map<string, string>> := map[
    "tce" := map["site_oficial" := "https://www2.tce.am.gov.br/", "portal_transparencia" := "https://transparencia.tce.am.gov.br/"],
    "sefaz" := map["site_oficial" := "https://www.sefaz.am.gov.br/", "portal_transparencia" := "http://sistemas.sefaz.am.gov.br/transparencia/"]
  ]

  /** `get_ug_link(ug, tipo)`: the acronym is lower-cased and both keys must be present, exactly. */
  function GetUgLink(ug: string, tipo: string): (r: Option<string>)
    ensures r.Some? <==> Lower(ug) in UgLinks && tipo in UgLinks[Lower(ug)]
    ensures r.Some? ==> r.value == UgLinks[Lower(ug)][tipo]
  {
    var key := Lower(ug);
    if key in UgLinks && tipo in UgLinks[key] then Some(UgLinks[key][tipo]) else None
  }

  /** Only the two acronyms, in any letter case, have links: there is no partial matching. */
  lemma OnlyKnownUnits(ug: string, tipo: string)
    requires Lower(ug) != "tce" && Lower(ug) != "sefaz"
    ensures GetUgLink(ug, tipo) == None
  {
  }

  /** ("SEFAZ", "portal_transparencia") gives the SEFAZ transparency system. */
  lemma SefazPortal()
    ensures GetUgLink("SEFAZ", "portal_transparencia") == Some("http://sistemas.sefaz.am.gov.br/transparencia/")
  {
    assert Lower("SEFAZ") == "sefaz";
  }
}
