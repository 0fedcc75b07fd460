/**
 * backend/import_data.py: loading the spreadsheet of Amazonas public bodies
 * into the database. A first pass over the rows creates one municipality per
 * distinct name, with its site and council links; a second pass creates the
 * other bodies, classified by words of their name, with their site and
 * transparency-portal links.
 */
module ImportData {
  import opened Base

  /** A spreadsheet cell: empty (NaN, or a column the sheet lacks) or a text. */
  datatype Cell = Missing | Value(s: string)

  /** The columns of a row that the import reads. */
  datatype Row = Row(
    nomeMunicipio: Cell,
    siteOficial: Cell,
    siteCamara: Cell,
    poderExecutivo: Cell,
    urlSiteOficial: Cell,
    linkPortal: Cell)

  /** The kinds of body. */
  datatype TipoOrgao =
    | Municipio | PoderExecutivo | PoderLegislativo | PoderJudiciario | TribunalContas
    | MinisterioPublico | Defensoria | Autarquia | Estatal | Secretaria | Fundacao

  /** The kinds of link. */
  datatype TipoLink = SiteOficial | SiteCamara | PortalTransparencia

  /** A body; its id is its position in the table. */
  datatype Orgao = Orgao(nome: string, tipo: TipoOrgao, uf: string)

  /** A link of the body with id `orgao`. */
  datatype Link = Link(orgao: nat, tipo: TipoLink, url: string)

  /** The two tables the import fills. */
  datatype Db = Db(orgaos: seq<Orgao>, links: seq<Link>)

  /** Every link belongs to a body of the table. */
  predicate Valid(db: Db) {
    forall i :: 0 <= i < |db.links| ==> db.links[i].orgao < |db.orgaos|
  }

  /** The placeholder the sheet holds for a site still unknown. */
  const Placeholder: string := "(A ser determinado)"

  // ---------------------------------------------------------------------
  // Classification of a body by its name
  // ---------------------------------------------------------------------

  /** The words looked for in a body's name, in the order they are tried, and the kind each one gives. */
  const Padroes: seq<(string, TipoOrgao)> := [
    ("Legislativo", PoderLegislativo), ("Judiciário", PoderJudiciario),
    ("Tribunal de Contas", TribunalContas), ("Ministério Público", MinisterioPublico),
    ("Defensoria", Defensoria), ("Autarquias", Autarquia), ("Estatais", Estatal),
    ("Secretarias", Secretaria), ("Fundações", Fundacao)
  ]

  /** `tipo_key` for a body named `nome`. */
  function TipoKey(nome: string): TipoOrgao {
    if Contains(nome, "Legislativo") then PoderLegislativo
    else if Contains(nome, "Judiciário") then PoderJudiciario
    else if Contains(nome, "Tribunal de Contas") then TribunalContas
    else if Contains(nome, "Ministério Público") then MinisterioPublico
    else if Contains(nome, "Defensoria") then Defensoria
    else if Contains(nome, "Autarquias") then Autarquia
    else if Contains(nome, "Estatais") then Estatal
    else if Contains(nome, "Secretarias") then Secretaria
    else if Contains(nome, "Fundações") then Fundacao
    else PoderExecutivo
  }

  /**
   * The kind is the one of the first word of the list found in the name, and
   * the executive branch when none is found; it is never a municipality.
   */
  lemma TipoKeyFirstMatch(nome: string)
    ensures TipoKey(nome) != Municipio
    ensures TipoKey(nome) == PoderExecutivo <==> forall k :: 0 <= k < |Padroes| ==> !Contains(nome, Padroes[k].0)
    ensures forall k :: 0 <= k < |Padroes| && TipoKey(nome) == Padroes[k].1 ==>
      Contains(nome, Padroes[k].0) && forall j :: 0 <= j < k ==> !Contains(nome, Padroes[j].0)
  {
    forall k | 0 <= k < |Padroes| && TipoKey(nome) == Padroes[k].1
      ensures Contains(nome, Padroes[k].0) && forall j :: 0 <= j < k ==> !Contains(nome, Padroes[j].0)
    {
      if k == 0 {} else if k == 1 {} else if k == 2 {} else if k == 3 {} else if k == 4 {}
      else if k == 5 {} else if k == 6 {} else if k == 7 {} else {}
    }
    forall k | 0 <= k < |Padroes| && TipoKey(nome) == PoderExecutivo ensures !Contains(nome, Padroes[k].0) {
      if k == 0 {} else if k == 1 {} else if k == 2 {} else if k == 3 {} else if k == 4 {}
      else if k == 5 {} else if k == 6 {} else if k == 7 {} else {}
    }
    if forall k :: 0 <= k < |Padroes| ==> !Contains(nome, Padroes[k].0) {
      assert !Contains(nome, Padroes[0].0) && !Contains(nome, Padroes[1].0) && !Contains(nome, Padroes[2].0);
      assert !Contains(nome, Padroes[3].0) && !Contains(nome, Padroes[4].0) && !Contains(nome, Padroes[5].0);
      assert !Contains(nome, Padroes[6].0) && !Contains(nome, Padroes[7].0) && !Contains(nome, Padroes[8].0);
    }
  }

  // ---------------------------------------------------------------------
  // The two passes, as values
  // ---------------------------------------------------------------------

  /** The site link of a municipality is kept unless the cell is empty or holds the placeholder. */
  predicate SiteValido(c: Cell) {
    c.Value? && c.s != Placeholder
  }

  /** The links of the municipality with id `id`: its site, then its council's site. */
  function LinksMunicipio(row: Row, id: nat): (ls: seq<Link>)
    ensures (exists l :: l in ls && l.tipo == SiteOficial) <==> SiteValido(row.siteOficial)
    ensures (exists l :: l in ls && l.tipo == SiteCamara) <==> row.siteCamara.Value?
    ensures forall l :: l in ls ==> l.orgao == id
  {
    (if SiteValido(row.siteOficial) then [Link(id, SiteOficial, row.siteOficial.s)] else []) +
    (if row.siteCamara.Value? then [Link(id, SiteCamara, row.siteCamara.s)] else [])
  }

  /** One row of the first pass: a new municipality when the row names one not seen yet. */
  function MunicipioStep(db: Db, vistos: set<string>, row: Row): (Db, set<string>) {
    if row.nomeMunicipio.Value? && row.nomeMunicipio.s !in vistos then
      var id := |db.orgaos|;
      (Db(db.orgaos + [Orgao(row.nomeMunicipio.s, Municipio, "AM")], db.links + LinksMunicipio(row, id)),
       vistos + {row.nomeMunicipio.s})
    else (db, vistos)
  }

  /** The first pass over `rows`, with the names in `vistos` already processed. */
  function Municipios(db: Db, vistos: set<string>, rows: seq<Row>): Db
    decreases |rows|
  {
    if rows == [] then db
    else
      var (db', vistos') := MunicipioStep(db, vistos, rows[0]);
      Municipios(db', vistos', rows[1..])
  }

  /** `.replace('(', '').replace(')', '')` */
  function SemParenteses(url: string): (r: string)
    ensures '(' !in r && ')' !in r
    ensures forall x :: x != '(' && x != ')' ==> (x in url <==> x in r)
  {
    ReplaceChar(ReplaceChar(url, '(', ""), ')', "")
  }

  /** One row of the second pass: a body named in the executive column, when it has an official site. */
  function OrgaoStep(db: Db, row: Row): Db {
    if row.poderExecutivo.Value? && row.poderExecutivo.s != "" && row.urlSiteOficial.Value? then
      var id := |db.orgaos|;
      var nome := row.poderExecutivo.s;
      Db(db.orgaos + [Orgao(nome, TipoKey(nome), "AM")],
         db.links + [Link(id, SiteOficial, row.urlSiteOficial.s)] +
         (if row.linkPortal.Value? then [Link(id, PortalTransparencia, SemParenteses(row.linkPortal.s))] else []))
    else db
  }

  /** The second pass over `rows`. */
  function Orgaos(db: Db, rows: seq<Row>): Db
    decreases |rows|
  {
    if rows == [] then db else Orgaos(OrgaoStep(db, rows[0]), rows[1..])
  }

  /** `importar_dados_planilha` on a sheet of `rows`, starting from the tables in `db`. */
  function Importacao(db: Db, rows: seq<Row>): Db {
    Orgaos(Municipios(db, {}, rows), rows)
  }

  // ---------------------------------------------------------------------
  // What the passes guarantee
  // ---------------------------------------------------------------------

  /** Each step only appends: the tables before it are prefixes of the tables after it. */
  predicate Extends(db: Db, db': Db) {
    |db.orgaos| <= |db'.orgaos| && db'.orgaos[..|db.orgaos|] == db.orgaos &&
    |db.links| <= |db'.links| && db'.links[..|db.links|] == db.links
  }

  lemma ExtendsTrans(a: Db, b: Db, c: Db)
    requires Extends(a, b) && Extends(b, c)
    ensures Extends(a, c)
  {
    assert c.orgaos[..|a.orgaos|] == c.orgaos[..|b.orgaos|][..|a.orgaos|];
    assert c.links[..|a.links|] == c.links[..|b.links|][..|a.links|];
  }

  /**
   * The first pass appends only municipalities, each with a name not seen
   * before and different from every other one it appends, and every name of
   * the sheet ends up seen or appended: one municipality per distinct name.
   */
  lemma {:induction false} MunicipiosDistinct(db: Db, vistos: set<string>, rows: seq<Row>)
    ensures var r := Municipios(db, vistos, rows);
      Extends(db, r) &&
      (forall i :: |db.orgaos| <= i < |r.orgaos| ==> r.orgaos[i].tipo == Municipio && r.orgaos[i].nome !in vistos) &&
      (forall i, j :: |db.orgaos| <= i < j < |r.orgaos| ==> r.orgaos[i].nome != r.orgaos[j].nome) &&
      (forall k :: 0 <= k < |rows| && rows[k].nomeMunicipio.Value? ==>
        rows[k].nomeMunicipio.s in vistos ||
        exists i :: |db.orgaos| <= i < |r.orgaos| && r.orgaos[i].nome == rows[k].nomeMunicipio.s)
    decreases |rows|
  {
    if rows != [] {
      var (db', vistos') := MunicipioStep(db, vistos, rows[0]);
      MunicipiosDistinct(db', vistos', rows[1..]);
      var r := Municipios(db, vistos, rows);
      assert r == Municipios(db', vistos', rows[1..]);
      assert Extends(db, db');
      ExtendsTrans(db, db', r);
      forall k | 0 <= k < |rows| && rows[k].nomeMunicipio.Value?
        ensures rows[k].nomeMunicipio.s in vistos ||
          exists i :: |db.orgaos| <= i < |r.orgaos| && r.orgaos[i].nome == rows[k].nomeMunicipio.s
      {
        var nome := rows[k].nomeMunicipio.s;
        if k == 0 {
          if nome !in vistos {
            assert r.orgaos[|db.orgaos|] == db'.orgaos[|db.orgaos|];
          }
        } else {
          assert rows[1..][k - 1] == rows[k];
          if nome !in vistos' {
          } else if nome !in vistos {
            assert db' != db;
            assert r.orgaos[|db.orgaos|] == db'.orgaos[|db.orgaos|];
          }
        }
      }
      if db' != db {
        assert r.orgaos[|db.orgaos|] == db'.orgaos[|db.orgaos|];
      }
    }
  }

  /** One municipality step keeps every link on a body of the table. */
  lemma MunicipioStepValid(db: Db, vistos: set<string>, row: Row)
    requires Valid(db)
    ensures Valid(MunicipioStep(db, vistos, row).0)
  {
  }

  /** The first pass keeps every link on a body of the table. */
  lemma {:induction false} MunicipiosValid(db: Db, vistos: set<string>, rows: seq<Row>)
    requires Valid(db)
    ensures Valid(Municipios(db, vistos, rows))
    decreases |rows|
  {
    if rows != [] {
      MunicipioStepValid(db, vistos, rows[0]);
      var (db', vistos') := MunicipioStep(db, vistos, rows[0]);
      MunicipiosValid(db', vistos', rows[1..]);
    }
  }

  /**
   * A row of the second pass adds a body exactly when it has a non-empty
   * name and an official site; the body gets the site link, and the portal
   * link, stripped of parentheses, exactly when the sheet has one.
   */
  lemma OrgaoStepShape(db: Db, row: Row)
    ensures var r := OrgaoStep(db, row);
      Extends(db, r) &&
      (|r.orgaos| == |db.orgaos| + 1 <==> row.poderExecutivo.Value? && row.poderExecutivo.s != "" && row.urlSiteOficial.Value?) &&
      (|r.orgaos| == |db.orgaos| ==> r == db)
    ensures var r := OrgaoStep(db, row);
      |r.orgaos| == |db.orgaos| + 1 ==>
        r.orgaos[|db.orgaos|] == Orgao(row.poderExecutivo.s, TipoKey(row.poderExecutivo.s), "AM") &&
        r.links[|db.links|] == Link(|db.orgaos|, SiteOficial, row.urlSiteOficial.s) &&
        (|r.links| == |db.links| + 2 <==> row.linkPortal.Value?) &&
        (row.linkPortal.Value? ==>
          (r.links[|db.links| + 1].tipo == PortalTransparencia &&
           '(' !in r.links[|db.links| + 1].url && ')' !in r.links[|db.links| + 1].url))
  {
    var r := OrgaoStep(db, row);
    assert r.orgaos[..|db.orgaos|] == db.orgaos;
    assert r.links[..|db.links|] == db.links;
  }

  /** The second pass keeps every link on a body of the table. */
  lemma {:induction false} OrgaosValid(db: Db, rows: seq<Row>)
    requires Valid(db)
    ensures Valid(Orgaos(db, rows))
    decreases |rows|
  {
    if rows != [] {
      var db' := OrgaoStep(db, rows[0]);
      assert Valid(db');
      OrgaosValid(db', rows[1..]);
    }
  }

  /** Importing a sheet keeps every link on a body of the table. */
  lemma ImportacaoValid(db: Db, rows: seq<Row>)
    requires Valid(db)
    ensures Valid(Importacao(db, rows))
  {
    MunicipiosValid(db, {}, rows);
    OrgaosValid(Municipios(db, {}, rows), rows);
  }

  /** The database session: the two tables, added to row by row. */
  class Sessao {
    var orgaos: seq<Orgao>
    var links: seq<Link>

    /** The tables as a value. */
    function Estado(): (db: Db)
      reads this
      ensures db.orgaos == orgaos && db.links == links
    {
      Db(orgaos, links)
    }

    constructor()
      ensures orgaos == [] && links == []
    {
      orgaos := [];
      links := [];
    }

    /** `session.add(orgao)` and `session.flush()`: the new body and its id. */
    method AdicionarOrgao(o: Orgao) returns (id: nat)
      modifies this
      ensures orgaos == old(orgaos) + [o] && links == old(links)
      ensures id == |old(orgaos)| && orgaos[id] == o
    {
      id := |orgaos|;
      orgaos := orgaos + [o];
    }

    /** `session.add(link)` */
    method AdicionarLink(l: Link)
      modifies this
      ensures links == old(links) + [l] && orgaos == old(orgaos)
    {
      links := links + [l];
    }

    /** The first loop: municipalities, once per distinct name. */
    method ProcessarMunicipios(df: seq<Row>)
      modifies this
      ensures Estado() == Municipios(old(Estado()), {}, df)
    {
      var processados: set<string> := {};
      for i := 0 to |df|
        invariant Municipios(old(Estado()), {}, df) == Municipios(Estado(), processados, df[i..])
      {
        assert df[i..][1..] == df[i + 1..];
        var row := df[i];
        ghost var antes := (Estado(), processados);
        if row.nomeMunicipio.Value? && row.nomeMunicipio.s !in processados {
          var id := AdicionarOrgao(Orgao(row.nomeMunicipio.s, Municipio, "AM"));
          if SiteValido(row.siteOficial) {
            AdicionarLink(Link(id, SiteOficial, row.siteOficial.s));
          }
          if row.siteCamara.Value? {
            AdicionarLink(Link(id, SiteCamara, row.siteCamara.s));
          }
          processados := processados + {row.nomeMunicipio.s};
          assert links == antes.0.links + LinksMunicipio(row, |antes.0.orgaos|);
        }
        assert (Estado(), processados) == MunicipioStep(antes.0, antes.1, row);
      }
    }

    /** The second loop: the other bodies, each with its links. */
    method ProcessarOrgaos(df: seq<Row>)
      modifies this
      ensures Estado() == Orgaos(old(Estado()), df)
    {
      for i := 0 to |df|
        invariant Orgaos(old(Estado()), df) == Orgaos(Estado(), df[i..])
      {
        assert df[i..][1..] == df[i + 1..];
        var row := df[i];
        ghost var antes := Estado();
        if row.poderExecutivo.Value? && row.poderExecutivo.s != "" {
          var nome := row.poderExecutivo.s;
          var tipo := TipoKey(nome);
          if row.urlSiteOficial.Value? {
            var id := AdicionarOrgao(Orgao(nome, tipo, "AM"));
            AdicionarLink(Link(id, SiteOficial, row.urlSiteOficial.s));
            if row.linkPortal.Value? {
              AdicionarLink(Link(id, PortalTransparencia, SemParenteses(row.linkPortal.s)));
            }
          }
        }
        assert Estado() == OrgaoStep(antes, row);
      }
    }

    /** `importar_dados_planilha`: the two passes over the sheet. */
    method ImportarDadosPlanilha(df: seq<Row>)
      modifies this
      ensures Estado() == Importacao(old(Estado()), df)
      ensures Valid(old(Estado())) ==> Valid(Estado())
    {
      ProcessarMunicipios(df);
      ProcessarOrgaos(df);
      if Valid(old(Estado())) {
        ImportacaoValid(old(Estado()), df);
      }
    }
  }
}
