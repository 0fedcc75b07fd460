/**
 * The spreadsheet of Amazonas public bodies (backend/amazonas_portals.py):
 * each row names a municipality and holds the URLs of its official site, its
 * council (câmara) site and its transparency portal. Reading the workbook is
 * outside the model; the loaded table is the constructor's argument.
 */
module AmazonasPortals {
  import opened Base
  import opened Html
  import opened Scraper

  /** A spreadsheet cell: empty (NaN), a string, or any other value together with its `str()` form. */
  datatype Cell = Empty | Str(s: string) | Other(repr: string)

  /** One row: the `nome_municipio` cell and the other cells by column name. */
  datatype Row = Row(name: Cell, cells: map<string, Cell>)

  /** `AmazonasPortals.normalize(text)`: "" for a missing value, otherwise transliterated, stripped and lower-cased. */
  function NormalizeCell(c: Cell): (r: string)
    ensures c.Empty? ==> r == ""
    ensures forall i :: 0 <= i < |r| ==> Folded(r[i]) && !('A' <= r[i] <= 'Z')
  {
    match c
    case Empty => ""
    case Str(s) => NormalizeFolded(s); Normalize(s)
    case Other(repr) => NormalizeFolded(repr); Normalize(repr)
  }

  /** Normalising a name that is already normalized changes nothing. */
  lemma NormalizeCellIdempotent(c: Cell)
    ensures NormalizeCell(Str(NormalizeCell(c))) == NormalizeCell(c)
  {
    match c
    case Empty =>
      assert Unidecode("") == "";
    case Str(s) => NormalizeIdempotent(s);
    case Other(repr) => NormalizeIdempotent(repr);
  }

  // ---------------------------------------------------------------------
  // The search term
  // ---------------------------------------------------------------------

  /** The prefixes `get_url` removes from a normalized name, in the order it tries them. */
  const Prefixes: seq<string> := ["prefeitura de ", "prefeitura municipal de ", "camara municipal de ", "camara de "]

  /** The index of the first prefix `term` starts with. */
  function FirstPrefix(term: string, prefixes: seq<string>): (k: Option<nat>)
    ensures k.Some? ==> k.value < |prefixes| && IsPrefix(prefixes[k.value], term)
    ensures forall j :: 0 <= j < |prefixes| && (k.None? || j < k.value) ==> !IsPrefix(prefixes[j], term)
  {
    if prefixes == [] then None
    else if IsPrefix(prefixes[0], term) then Some(0)
    else
      match FirstPrefix(term, prefixes[1..])
      case None => None
      case Some(j) => Some(j + 1)
  }

  /** The search term: the normalized name without the first matching prefix, if any. */
  function SearchTerm(name: string): (r: string)
    ensures IsSuffix(r, name)
  {
    match FirstPrefix(name, Prefixes)
    case None => name
    case Some(k) => name[|Prefixes[k]|..]
  }

  /** At most one prefix goes: the first in list order that the name starts with. */
  lemma SearchTermStripsFirstPrefix(name: string, k: nat)
    requires k < |Prefixes| && IsPrefix(Prefixes[k], name)
    requires forall j :: 0 <= j < k ==> !IsPrefix(Prefixes[j], name)
    ensures SearchTerm(name) == name[|Prefixes[k]|..]
  {
  }

  /** A name with none of the prefixes is searched for as it is. */
  lemma SearchTermWithoutPrefix(name: string)
    requires forall j :: 0 <= j < |Prefixes| ==> !IsPrefix(Prefixes[j], name)
    ensures SearchTerm(name) == name
  {
  }

  // ---------------------------------------------------------------------
  // The URL a matching row yields
  // ---------------------------------------------------------------------

  /** What one matching row decides: nothing usable (scan on), abort with `None`, or a URL. */
  datatype Pick = Skip | Abort | Url(url: string)

  /** `col_map.get(tipo)`: the three URL types read the column of the same name. */
  function Column(tipo: string): (col: Option<string>)
    ensures col.Some? <==> tipo == "site_oficial" || tipo == "site_camara" || tipo == "portal_transparencia"
    ensures col.Some? ==> col.value == tipo
  {
    if tipo == "site_oficial" || tipo == "site_camara" || tipo == "portal_transparencia" then Some(tipo) else None
  }

  /** A string cell with a non-blank value that does not start with "(". */
  predicate Usable(c: Cell) {
    c.Str? && Strip(c.s) != [] && !IsPrefix("(", c.s)
  }

  /** Prefix `https://` unless the URL already has a scheme. */
  function WithHttps(url: string): (r: string)
    ensures HasScheme(r) && IsSuffix(url, r)
    ensures HasScheme(url) ==> r == url
  {
    if HasScheme(url) then url else "https://" + url
  }

  /** `url[1:-1]` when the value is wrapped in one pair of parentheses. */
  function Unwrap(url: string): (r: string)
    ensures IsPrefix("(", url) && IsSuffix(")", url) ==> |r| == |url| - 2 && url == "(" + r + ")"
    ensures !(IsPrefix("(", url) && IsSuffix(")", url)) ==> r == url
  {
    if IsPrefix("(", url) && IsSuffix(")", url) then
      assert url[..1][0] == '(' && url[|url| - 1..][0] == ')';
      url[1..|url| - 1]
    else
      url
  }

  /** The marker of a URL still to be determined. */
  const Placeholder: string := "(a ser determinado)"

  /**
   * The URL a row whose name matched yields for `tipo`: the typed column when
   * usable (aborting on a placeholder), else the `url_site_oficial` column for
   * the official site, else the portal column unwrapped from parentheses.
   */
  function RowPick(row: Row, tipo: string): (p: Pick)
    ensures p.Url? ==> HasScheme(p.url)
    ensures p == Abort ==> Column(tipo).Some? && Column(tipo).value in row.cells
  {
    var col := Column(tipo);
    if col.Some? && col.value in row.cells && Usable(row.cells[col.value]) then
      var url := row.cells[col.value].s;
      if Contains(Lower(url), Placeholder) then Abort else Url(WithHttps(url))
    else if tipo == "site_oficial" && "url_site_oficial" in row.cells && Usable(row.cells["url_site_oficial"]) then
      Url(WithHttps(row.cells["url_site_oficial"].s))
    else if tipo == "portal_transparencia" && "portal_transparencia" in row.cells
      && row.cells["portal_transparencia"].Str? && Strip(row.cells["portal_transparencia"].s) != [] then
      Url(WithHttps(Unwrap(row.cells["portal_transparencia"].s)))
    else
      Skip
  }

  /** The exact pass compares names for equality; the partial pass accepts containment either way. */
  predicate NameMatches(row: Row, term: string, exact: bool) {
    var n := NormalizeCell(row.name);
    if exact then n == term else Contains(n, term) || Contains(term, n)
  }

  /** One pass over the rows: the first matching row that decides something. */
  function Scan(rows: seq<Row>, term: string, exact: bool, tipo: string): (p: Pick)
  {
    if rows == [] then Skip
    else if NameMatches(rows[0], term, exact) && RowPick(rows[0], tipo) != Skip then RowPick(rows[0], tipo)
    else Scan(rows[1..], term, exact, tipo)
  }

  /** `get_url(orgao, tipo)` as a value: no data gives `None`; the exact pass runs over every row before the partial pass. */
  function GetUrlSpec(data: Option<seq<Row>>, orgao: string, tipo: string): (r: Option<string>)
    ensures data.None? || data.value == [] ==> r.None?
  {
    if data.None? || data.value == [] then None
    else
      var term := SearchTerm(Normalize(orgao));
      match Scan(data.value, term, true, tipo)
      case Abort => None
      case Url(u) => Some(u)
      case Skip =>
        match Scan(data.value, term, false, tipo)
        case Url(u) => Some(u)
        case _ => None
  }

  /** Whatever pass decides, a URL found carries a scheme. */
  lemma {:induction false} ScanHasScheme(rows: seq<Row>, term: string, exact: bool, tipo: string)
    ensures Scan(rows, term, exact, tipo).Url? ==> HasScheme(Scan(rows, term, exact, tipo).url)
  {
    if rows != [] && !(NameMatches(rows[0], term, exact) && RowPick(rows[0], tipo) != Skip) {
      ScanHasScheme(rows[1..], term, exact, tipo);
    }
  }

  /** Every URL `get_url` returns starts with `http://` or `https://`. */
  lemma GetUrlHasScheme(data: Option<seq<Row>>, orgao: string, tipo: string)
    ensures GetUrlSpec(data, orgao, tipo).Some? ==> HasScheme(GetUrlSpec(data, orgao, tipo).value)
  {
    if data.Some? && data.value != [] {
      var term := SearchTerm(Normalize(orgao));
      ScanHasScheme(data.value, term, true, tipo);
      ScanHasScheme(data.value, term, false, tipo);
    }
  }

  /**
   * A pass decides on the first matching row that yields something: matching
   * rows with nothing usable before it are passed over.
   */
  lemma {:induction false} ScanFirstDecisive(rows: seq<Row>, term: string, exact: bool, tipo: string, k: nat)
    requires k < |rows| && NameMatches(rows[k], term, exact) && RowPick(rows[k], tipo) != Skip
    requires forall j :: 0 <= j < k ==> !NameMatches(rows[j], term, exact) || RowPick(rows[j], tipo) == Skip
    ensures Scan(rows, term, exact, tipo) == RowPick(rows[k], tipo)
  {
    if k > 0 {
      ScanSkipHead(rows, term, exact, tipo);
      forall j | 0 <= j < k - 1 ensures !NameMatches(rows[1..][j], term, exact) || RowPick(rows[1..][j], tipo) == Skip {
        assert rows[1..][j] == rows[j + 1];
      }
      ScanFirstDecisive(rows[1..], term, exact, tipo, k - 1);
    }
  }

  /** A head row that decides nothing is passed over. */
  lemma ScanSkipHead(rows: seq<Row>, term: string, exact: bool, tipo: string)
    requires rows != [] && (!NameMatches(rows[0], term, exact) || RowPick(rows[0], tipo) == Skip)
    ensures Scan(rows, term, exact, tipo) == Scan(rows[1..], term, exact, tipo)
  {
  }

  /** A pass in which no matching row yields anything decides nothing. */
  lemma {:induction false} ScanNothing(rows: seq<Row>, term: string, exact: bool, tipo: string)
    requires forall j :: 0 <= j < |rows| ==> !NameMatches(rows[j], term, exact) || RowPick(rows[j], tipo) == Skip
    ensures Scan(rows, term, exact, tipo) == Skip
  {
    if rows != [] {
      forall j | 0 <= j < |rows| - 1 ensures !NameMatches(rows[1..][j], term, exact) || RowPick(rows[1..][j], tipo) == Skip {
        assert rows[1..][j] == rows[j + 1];
      }
      ScanNothing(rows[1..], term, exact, tipo);
    }
  }

  /**
   * An exact match that yields a URL wins over any earlier partial match: the
   * exact pass over all rows comes first.
   */
  lemma ExactBeforePartial(rows: seq<Row>, orgao: string, tipo: string, k: nat)
    requires k < |rows|
    requires NameMatches(rows[k], SearchTerm(Normalize(orgao)), true) && RowPick(rows[k], tipo).Url?
    requires forall j :: 0 <= j < k ==> !NameMatches(rows[j], SearchTerm(Normalize(orgao)), true) || RowPick(rows[j], tipo) == Skip
    ensures GetUrlSpec(Some(rows), orgao, tipo) == Some(RowPick(rows[k], tipo).url)
  {
    ScanFirstDecisive(rows, SearchTerm(Normalize(orgao)), true, tipo, k);
  }

  /** A placeholder in the typed column of the first decisive exact row makes the whole lookup `None`, whatever later rows hold. */
  lemma PlaceholderAborts(rows: seq<Row>, orgao: string, tipo: string, k: nat)
    requires k < |rows|
    requires NameMatches(rows[k], SearchTerm(Normalize(orgao)), true)
    requires forall j :: 0 <= j < k ==> !NameMatches(rows[j], SearchTerm(Normalize(orgao)), true) || RowPick(rows[j], tipo) == Skip
    requires Column(tipo).Some? && Column(tipo).value in rows[k].cells && Usable(rows[k].cells[tipo])
    requires Contains(Lower(rows[k].cells[tipo].s), Placeholder)
    ensures GetUrlSpec(Some(rows), orgao, tipo) == None
  {
    ScanFirstDecisive(rows, SearchTerm(Normalize(orgao)), true, tipo, k);
  }

  /** A portal cell wrapped in parentheses yields the URL inside, with a scheme added when missing. */
  lemma PortalUnwrapped(row: Row, inner: string)
    requires "portal_transparencia" in row.cells && row.cells["portal_transparencia"] == Str("(" + inner + ")")
    ensures RowPick(row, "portal_transparencia") == Url(WithHttps(inner))
  {
    var url := "(" + inner + ")";
    assert !Usable(row.cells["portal_transparencia"]) by {
      assert url[..1] == "(";
    }
    assert url[0] == '(';
    assert !IsSpace(url[0]);
    assert Strip(url) != [] by {
      assert LStrip(url) == url;
      assert RStrip(url) != [] by {
        assert url[|url| - 1] == ')';
      }
    }
    assert IsPrefix("(", url) && IsSuffix(")", url) by {
      assert url[|url| - 1..] == ")";
    }
    assert url[1..|url| - 1] == inner;
  }

  /** `get_all_municipalities()` as a value: the non-blank string names other than the header, in order. */
  function Municipalities(rows: seq<Row>): (names: seq<string>)
    ensures |names| <= |rows|
    ensures forall i :: 0 <= i < |names| ==> Strip(names[i]) != [] && names[i] != "Nome_Município"
  {
    if rows == [] then []
    else
      var c := rows[0].name;
      (if c.Str? && Strip(c.s) != [] && c.s != "Nome_Município" then [c.s] else []) + Municipalities(rows[1..])
  }

  /** Every name kept comes from some row, and every acceptable string name is kept. */
  lemma {:induction false} MunicipalitiesExact(rows: seq<Row>, s: string)
    ensures s in Municipalities(rows) <==>
      (exists k :: 0 <= k < |rows| && rows[k].name == Str(s)) && Strip(s) != [] && s != "Nome_Município"
  {
    if rows != [] {
      MunicipalitiesExact(rows[1..], s);
      if exists k :: 0 <= k < |rows[1..]| && rows[1..][k].name == Str(s) {
        var k :| 0 <= k < |rows[1..]| && rows[1..][k].name == Str(s);
        assert rows[k + 1].name == Str(s);
      }
      if exists k :: 0 <= k < |rows| && rows[k].name == Str(s) {
        var k :| 0 <= k < |rows| && rows[k].name == Str(s);
        if k > 0 {
          assert rows[1..][k - 1].name == Str(s);
        }
      }
    }
  }

  /** The names from row `i` on: row `i`'s name when kept, then the names after it. */
  lemma MunicipalitiesStep(rows: seq<Row>, i: nat)
    requires i < |rows|
    ensures var c := rows[i].name;
      Municipalities(rows[i..]) ==
        (if c.Str? && Strip(c.s) != [] && c.s != "Nome_Município" then [c.s] else []) + Municipalities(rows[i + 1..])
  {
    assert rows[i..][1..] == rows[i + 1..];
  }

  /** The loaded spreadsheet (`AmazonasPortals`); `None` before anything was loaded. */
  class Portals {
    var data: Option<seq<Row>>

    /** `load_data()` reads the workbook; here its outcome is given. */
    constructor(loaded: Option<seq<Row>>)
      ensures data == loaded
    {
      data := loaded;
    }

    /** The prefix loop of `get_url`: the first institutional prefix found is cut off the normalized name. */
    static method StripPrefix(orgaoNorm: string) returns (searchTerm: string)
      ensures searchTerm == SearchTerm(orgaoNorm)
    {
      searchTerm := orgaoNorm;
      var p := 0;
      while p < |Prefixes|
        invariant 0 <= p <= |Prefixes|
        invariant forall j :: 0 <= j < p ==> !IsPrefix(Prefixes[j], orgaoNorm)
        invariant searchTerm == orgaoNorm
      {
        if IsPrefix(Prefixes[p], searchTerm) {
          SearchTermStripsFirstPrefix(orgaoNorm, p);
          searchTerm := searchTerm[|Prefixes[p]|..];
          return;
        }
        p := p + 1;
      }
      SearchTermWithoutPrefix(orgaoNorm);
    }

    /** `get_url(orgao, tipo)`: prefix loop, then the exact row scan, then the partial row scan. */
    method GetUrl(orgao: string, tipo: string) returns (r: Option<string>)
      ensures r == GetUrlSpec(data, orgao, tipo)
      ensures r.Some? ==> HasScheme(r.value)
    {
      GetUrlHasScheme(data, orgao, tipo);
      if data.None? || data.value == [] {
        return None;
      }
      var rows := data.value;
      var orgaoNorm := Normalize(orgao);
      var searchTerm := StripPrefix(orgaoNorm);
      var exact := ScanRows(rows, searchTerm, true, tipo);
      match exact {
        case Abort => return None;
        case Url(u) => return Some(u);
        case Skip =>
      }
      var partial := ScanRows(rows, searchTerm, false, tipo);
      if partial.Url? {
        return Some(partial.url);
      }
      return None;
    }

    /** `get_all_municipalities()`; a non-empty table always has the name column. */
    method GetAllMunicipalities() returns (names: seq<string>)
      ensures names == (if data.None? then [] else Municipalities(data.value))
    {
      if data.None? || data.value == [] {
        return [];
      }
      var rows := data.value;
      names := [];
      var i := 0;
      while i < |rows|
        invariant 0 <= i <= |rows|
        invariant names + Municipalities(rows[i..]) == Municipalities(rows)
      {
        MunicipalitiesStep(rows, i);
        ghost var before := names;
        ghost var head := if rows[i].name.Str? && Strip(rows[i].name.s) != [] && rows[i].name.s != "Nome_Município"
          then [rows[i].name.s] else [];
        var nome := rows[i].name;
        if nome.Str? && Strip(nome.s) != [] && nome.s != "Nome_Município" {
          names := names + [nome.s];
        }
        assert names == before + head;
        AppendAssoc(before, head, Municipalities(rows[i + 1..]));
        i := i + 1;
      }
      assert rows[i..] == [];
    }
  }

  /** One row-scan loop of `get_url`, leaving on the first row that decides. */
  method ScanRows(rows: seq<Row>, term: string, exact: bool, tipo: string) returns (p: Pick)
    ensures p == Scan(rows, term, exact, tipo)
  {
    var i := 0;
    while i < |rows|
      invariant 0 <= i <= |rows|
      invariant Scan(rows, term, exact, tipo) == Scan(rows[i..], term, exact, tipo)
    {
      assert rows[i..][1..] == rows[i + 1..];
      var n := NormalizeCell(rows[i].name);
      var matches := if exact then n == term else Contains(n, term) || Contains(term, n);
      if matches {
        var pick := RowPick(rows[i], tipo);
        if pick != Skip {
          return pick;
        }
      }
      i := i + 1;
    }
    return Skip;
  }
}
