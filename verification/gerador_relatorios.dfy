/**
 * backend/gerador_relatorios.py: the reports written from a list of result
 * dictionaries, as TXT, CSV, JSON, PDF, XML and ODS files. The model keeps
 * what the reports contain and how their files are named; writing the files
 * and laying out the PDF are outside it.
 */
module GeradorRelatorios {
  import opened Base
  import opened Dates

  /** A value of a result dictionary: a string, a boolean or `None`. */
  datatype Value = Text(s: string) | Flag(b: bool) | Null

  /** A result dictionary. */
  type Resultado = map<string, Value>

  /** Python truthiness of a value. */
  predicate Holds(v: Value) {
    match v
    case Text(s) => s != ""
    case Flag(b) => b
    case Null => false
  }

  /** `str(v)`, as an f-string renders it. */
  function Str(v: Value): string {
    match v
    case Text(s) => s
    case Flag(b) => if b then "True" else "False"
    case Null => "None"
  }

  /** What `csv.writer` writes for a value: `None` becomes an empty field. */
  function CsvText(v: Value): string {
    if v.Null? then "" else Str(v)
  }

  /** `resultado.get(key, default)` */
  function Get(r: Resultado, key: string, default: Value): (v: Value)
    ensures key in r ==> v == r[key]
    ensures key !in r ==> v == default
  {
    if key in r then r[key] else default
  }

  /** `'Sim' if v else 'Não'` */
  function SimNao(v: Value): (s: string)
    ensures s == "Sim" <==> Holds(v)
    ensures s == "Sim" || s == "Não"
  {
    if Holds(v) then "Sim" else "Não"
  }

  // ---------------------------------------------------------------------
  // File names
  // ---------------------------------------------------------------------

  /** A number in decimal, padded with zeros on the left to `w` digits. */
  function Pad(n: nat, w: nat): (s: string)
    ensures AllDigits(s)
    ensures |NatToString(n)| <= w ==> |s| == w
  {
    var d := NatToString(n);
    if |d| >= w then d else seq(w - |d|, _ => '0') + d
  }

  /** A number below `10^k` has at most `k` digits. */
  lemma {:induction false} DigitsBound(n: nat, k: nat, p: nat)
    requires p == Pow10(k) && n < p
    ensures |NatToString(n)| <= (if k == 0 then 1 else k)
    decreases k
  {
    if n >= 10 {
      DigitsBound(n / 10, k - 1, Pow10(k - 1));
    }
  }

  function Pow10(k: nat): nat {
    if k == 0 then 1 else 10 * Pow10(k - 1)
  }

  /** `strftime("%Y%m%d_%H%M%S")` */
  function Timestamp(t: DateTime): string {
    Pad(Nat(t.date.year), 4) + Pad(Nat(t.date.month), 2) + Pad(Nat(t.date.day), 2) + "_" +
    Pad(Nat(t.hour), 2) + Pad(Nat(t.minute), 2) + Pad(Nat(t.second), 2)
  }

  function Nat(i: int): nat {
    if i < 0 then 0 else i
  }

  /** For a four-digit year and a valid date and time, the stamp is fifteen characters: eight digits, an underscore, six digits. */
  lemma TimestampShape(t: DateTime)
    requires 1000 <= t.date.year <= 9999 && ValidDate(t.date) && ValidTime(t.hour, t.minute, t.second)
    ensures |Timestamp(t)| == 15 && Timestamp(t)[8] == '_'
    ensures forall i :: 0 <= i < 15 && i != 8 ==> IsDigit(Timestamp(t)[i])
  {
    DigitsBound(t.date.year, 4, 10000);
    DigitsBound(t.date.month, 2, 100);
    DigitsBound(t.date.day, 2, 100);
    DigitsBound(t.hour, 2, 100);
    DigitsBound(t.minute, 2, 100);
    DigitsBound(t.second, 2, 100);
    var ts := Timestamp(t);
    var a := Pad(Nat(t.date.year), 4) + Pad(Nat(t.date.month), 2) + Pad(Nat(t.date.day), 2);
    var b := Pad(Nat(t.hour), 2) + Pad(Nat(t.minute), 2) + Pad(Nat(t.second), 2);
    assert |a| == 8 && AllDigits(a);
    assert |b| == 6 && AllDigits(b);
    assert ts == a + "_" + b;
    forall i | 0 <= i < 15 && i != 8 ensures IsDigit(ts[i]) {
      if i < 8 {
        assert ts[i] == a[i];
      } else {
        assert ts[i] == b[i - 9];
      }
    }
  }

  /** `f"avaliacao_{orgao.replace(' ', '_')}_{timestamp}.{formato}"` */
  function NomeArquivo(orgao: string, timestamp: string, formato: string): string {
    "avaliacao_" + ReplaceChar(orgao, ' ', "_") + "_" + timestamp + "." + formato
  }

  /** `os.path.join(a, b)` on POSIX: an absolute `b` wins; otherwise a `/` goes between them unless `a` is empty or already ends in one. */
  function PathJoin(a: string, b: string): string {
    if IsPrefix("/", b) then b
    else if a == "" || IsSuffix("/", a) then a + b
    else a + "/" + b
  }

  /** `gerar_nome_arquivo(orgao, formato)` with the clock reading `now`. */
  function Caminho(diretorio: string, orgao: string, formato: string, now: DateTime): string {
    PathJoin(diretorio, NomeArquivo(orgao, Timestamp(now), formato))
  }

  /** Replacing a character by a string without it leaves none of it. */
  lemma {:induction false} ReplaceCharRemoves(s: string, c: char, t: string)
    requires c !in t
    ensures c !in ReplaceChar(s, c, t)
    decreases |s|
  {
    if s != [] {
      ReplaceCharRemoves(s[1..], c, t);
    }
  }

  /** A name starts with "avaliacao_", ends with the format's extension, and keeps no blank of the body's name. */
  lemma NomeShape(orgao: string, timestamp: string, formato: string)
    ensures var nome := NomeArquivo(orgao, timestamp, formato);
      IsPrefix("avaliacao_", nome) && IsSuffix("." + formato, nome) && nome[0] != '/'
    ensures ' ' !in ReplaceChar(orgao, ' ', "_")
  {
    var mid := ReplaceChar(orgao, ' ', "_") + "_" + timestamp;
    var nome := NomeArquivo(orgao, timestamp, formato);
    assert nome == "avaliacao_" + (mid + "." + formato);
    assert nome == ("avaliacao_" + mid) + ("." + formato);
    ReplaceCharRemoves(orgao, ' ', "_");
  }

  /** Joining a directory with a relative name puts the name at the end, right after the directory or after one '/'. */
  lemma PathJoinShape(a: string, b: string)
    requires b != [] && b[0] != '/'
    ensures var path := PathJoin(a, b);
      IsPrefix(a, path) && IsSuffix(b, path) && (path == a + b || path == a + "/" + b)
  {
    assert !IsPrefix("/", b);
    var path := PathJoin(a, b);
    if a == "" || IsSuffix("/", a) {
      assert path == a + b;
    } else {
      assert path == (a + "/") + b;
    }
  }

  /**
   * The file lies in the output directory, its name starts with "avaliacao_",
   * ends with the format's extension, and has no blank from the body's name.
   */
  lemma CaminhoShape(diretorio: string, orgao: string, formato: string, now: DateTime)
    ensures var nome := NomeArquivo(orgao, Timestamp(now), formato);
      var path := Caminho(diretorio, orgao, formato, now);
      IsPrefix(diretorio, path) && IsSuffix(nome, path) &&
      (path == diretorio + nome || path == diretorio + "/" + nome) &&
      IsPrefix("avaliacao_", nome) && IsSuffix("." + formato, nome)
    ensures ' ' !in ReplaceChar(orgao, ' ', "_")
  {
    NomeShape(orgao, Timestamp(now), formato);
    PathJoinShape(diretorio, NomeArquivo(orgao, Timestamp(now), formato));
  }

  // ---------------------------------------------------------------------
  // The Latin-1 sanitiser of the PDF report
  // ---------------------------------------------------------------------

  /** The replacement table, in its order: dashes, curly quotes, no-break space, ordinals, degree and section signs. */
  const Replacements: seq<(char, string)> := [
    ('\U{2013}', "-"), ('\U{2014}', "-"), ('\U{2018}', "'"), ('\U{2019}', "'"),
    ('\U{201c}', "\""), ('\U{201d}', "\""), ('\U{a0}', " "), ('\U{ba}', "o"),
    ('\U{aa}', "a"), ('\U{b0}', " graus"), ('\U{a7}', "paragrafo ")
  ]

  /** Each replacement of the table applied to the whole text, in order. */
  function ReplaceAll(reps: seq<(char, string)>, s: string): string
    decreases |reps|
  {
    if reps == [] then s else ReplaceAll(reps[1..], ReplaceChar(s, reps[0].0, reps[0].1))
  }

  /** `''.join(c if ord(c) < 256 else '?' for c in texto)` */
  function Latin1(s: string): (r: string)
    ensures |r| == |s|
    ensures forall i :: 0 <= i < |r| ==> r[i] as int < 256
  {
    seq(|s|, i requires 0 <= i < |s| => if s[i] as int < 256 then s[i] else '?')
  }

  /** `sanitizar_texto(texto)` */
  function Sanitizar(texto: string): (r: string)
    ensures forall i :: 0 <= i < |r| ==> r[i] as int < 256
  {
    if texto == "" then "" else Latin1(ReplaceAll(Replacements, texto))
  }

  /** The replacement of the first entry of the table keyed by `c`, if any. */
  function Lookup(reps: seq<(char, string)>, c: char): (t: Option<string>)
    ensures t.Some? <==> exists k :: 0 <= k < |reps| && reps[k].0 == c
    decreases |reps|
  {
    if reps == [] then None
    else if reps[0].0 == c then Some(reps[0].1)
    else (assert forall k :: 1 <= k < |reps| ==> reps[k] == reps[1..][k - 1];
          Lookup(reps[1..], c))
  }

  /** What the sanitiser makes of one character: its table entry, else itself within Latin-1, else '?'. */
  function SanChar(c: char): string {
    match Lookup(Replacements, c)
    case Some(t) => t
    case None => if c as int < 256 then [c] else "?"
  }

  /** The sanitiser as a character-by-character translation. */
  function Sanitized(s: string): string {
    if s == [] then [] else SanChar(s[0]) + Sanitized(s[1..])
  }

  lemma {:induction false} ReplaceCharConcat(a: string, b: string, c: char, t: string)
    ensures ReplaceChar(a + b, c, t) == ReplaceChar(a, c, t) + ReplaceChar(b, c, t)
    decreases |a|
  {
    if a != [] {
      ReplaceCharConcat(a[1..], b, c, t);
      assert (a + b)[1..] == a[1..] + b;
    } else {
      assert a + b == b;
    }
  }

  lemma {:induction false} ReplaceAllConcat(reps: seq<(char, string)>, a: string, b: string)
    ensures ReplaceAll(reps, a + b) == ReplaceAll(reps, a) + ReplaceAll(reps, b)
    decreases |reps|
  {
    if reps != [] {
      ReplaceCharConcat(a, b, reps[0].0, reps[0].1);
      ReplaceAllConcat(reps[1..], ReplaceChar(a, reps[0].0, reps[0].1), ReplaceChar(b, reps[0].0, reps[0].1));
    }
  }

  /** A text without any of the table's characters passes through the table unchanged. */
  lemma {:induction false} ReplaceAllUntouched(reps: seq<(char, string)>, s: string)
    requires forall k :: 0 <= k < |reps| ==> reps[k].0 !in s
    ensures ReplaceAll(reps, s) == s
    decreases |reps|
  {
    if reps != [] {
      ReplaceCharAbsent(s, reps[0].0, reps[0].1);
      ReplaceAllUntouched(reps[1..], s);
    }
  }

  lemma {:induction false} ReplaceCharAbsent(s: string, c: char, t: string)
    requires c !in s
    ensures ReplaceChar(s, c, t) == s
    decreases |s|
  {
    if s != [] {
      ReplaceCharAbsent(s[1..], c, t);
    }
  }

  /** Every key lies beyond ASCII and every replacement within it, so no replacement brings back a key. */
  predicate AsciiTable(reps: seq<(char, string)>) {
    forall k :: 0 <= k < |reps| ==>
      reps[k].0 as int >= 128 && forall i :: 0 <= i < |reps[k].1| ==> reps[k].1[i] as int < 128
  }

  lemma TableIsAscii()
    ensures AsciiTable(Replacements)
  {
  }

  /** Applying a table of this kind to one character gives its first entry's replacement, or the character itself. */
  lemma {:induction false} ReplaceAllOne(reps: seq<(char, string)>, c: char)
    requires AsciiTable(reps)
    ensures ReplaceAll(reps, [c]) == match Lookup(reps, c) case Some(t) => t case None => [c]
    decreases |reps|
  {
    if reps != [] {
      assert AsciiTable(reps[1..]) by {
        forall k | 0 <= k < |reps[1..]| ensures reps[1..][k] == reps[k + 1] {}
      }
      if reps[0].0 == c {
        var t := reps[0].1;
        assert ReplaceChar([c], c, t) == t + ReplaceChar([], c, t);
        assert ReplaceChar([c], c, t) == t;
        assert ReplaceAll(reps, [c]) == ReplaceAll(reps[1..], t);
        forall k | 0 <= k < |reps[1..]| ensures reps[1..][k].0 !in t {
          assert reps[1..][k] == reps[k + 1];
        }
        ReplaceAllUntouched(reps[1..], t);
      } else {
        assert ReplaceChar([c], reps[0].0, reps[0].1) == [c] + ReplaceChar([], reps[0].0, reps[0].1);
        ReplaceAllOne(reps[1..], c);
      }
    }
  }

  /** Latin-1 filtering leaves ASCII text alone. */
  lemma Latin1Ascii(t: string)
    requires forall i :: 0 <= i < |t| ==> t[i] as int < 128
    ensures Latin1(t) == t
  {
  }

  /** A replacement found in a table of this kind is plain ASCII. */
  lemma LookupAscii(reps: seq<(char, string)>, c: char)
    requires AsciiTable(reps) && Lookup(reps, c).Some?
    ensures forall i :: 0 <= i < |Lookup(reps, c).value| ==> Lookup(reps, c).value[i] as int < 128
  {
    LookupFound(reps, c);
    var k :| 0 <= k < |reps| && reps[k] == (c, Lookup(reps, c).value);
  }

  /** A table of this kind, then Latin-1 filtering, applied to one character. */
  lemma ReplaceAllCharIn(reps: seq<(char, string)>, c: char)
    requires AsciiTable(reps)
    ensures Latin1(ReplaceAll(reps, [c])) ==
      match Lookup(reps, c) case Some(t) => t case None => (if c as int < 256 then [c] else "?")
  {
    ReplaceAllOne(reps, c);
    var found := Lookup(reps, c);
    if found.Some? {
      LookupAscii(reps, c);
      Latin1Ascii(found.value);
    }
  }

  /** The table applied to one character gives what the table says for it. */
  lemma ReplaceAllChar(c: char)
    ensures Latin1(ReplaceAll(Replacements, [c])) == SanChar(c)
  {
    TableIsAscii();
    ReplaceAllCharIn(Replacements, c);
  }

  /** A replacement the lookup finds is one of the table's. */
  lemma {:induction false} LookupFound(reps: seq<(char, string)>, c: char)
    requires Lookup(reps, c).Some?
    ensures exists k :: 0 <= k < |reps| && reps[k] == (c, Lookup(reps, c).value)
    decreases |reps|
  {
    if reps[0].0 != c {
      LookupFound(reps[1..], c);
      var k :| 0 <= k < |reps[1..]| && reps[1..][k] == (c, Lookup(reps, c).value);
      assert reps[k + 1] == reps[1..][k];
    } else {
      assert reps[0] == (c, Lookup(reps, c).value);
    }
  }

  lemma {:induction false} Latin1Concat(a: string, b: string)
    ensures Latin1(a + b) == Latin1(a) + Latin1(b)
  {
  }

  /** The sanitiser translates each character on its own, as the table and the Latin-1 rule say. */
  lemma {:induction false} SanitizarPerChar(s: string)
    ensures Sanitizar(s) == Sanitized(s)
    decreases |s|
  {
    if s != [] {
      assert s == [s[0]] + s[1..];
      ReplaceAllConcat(Replacements, [s[0]], s[1..]);
      Latin1Concat(ReplaceAll(Replacements, [s[0]]), ReplaceAll(Replacements, s[1..]));
      ReplaceAllChar(s[0]);
      SanitizarPerChar(s[1..]);
      if s[1..] == [] {
        assert ReplaceAll(Replacements, []) == [] by {
          ReplaceAllUntouched(Replacements, []);
        }
      }
    }
  }

  /** Latin-1 text with no character of the table passes through the sanitiser unchanged. */
  lemma {:induction false} SanitizarKeepsLatin1(s: string)
    requires forall i :: 0 <= i < |s| ==> s[i] as int < 256 && Lookup(Replacements, s[i]).None?
    ensures Sanitizar(s) == s
    decreases |s|
  {
    SanitizarPerChar(s);
    SanitizedKeeps(s);
  }

  lemma {:induction false} SanitizedKeeps(s: string)
    requires forall i :: 0 <= i < |s| ==> s[i] as int < 256 && Lookup(Replacements, s[i]).None?
    ensures Sanitized(s) == s
    decreases |s|
  {
    if s != [] {
      SanitizedKeeps(s[1..]);
    }
  }

  /** A character beyond Latin-1 without an entry in the table becomes '?'. */
  lemma SanitizarReplacesWide(c: char)
    requires c as int >= 256 && Lookup(Replacements, c).None?
    ensures Sanitizar([c]) == "?"
  {
    SanitizarPerChar([c]);
  }

  /** The en dash becomes a hyphen. */
  lemma SanitizarDash()
    ensures Sanitizar("\U{2013}") == "-"
  {
    ReplaceAllChar('\U{2013}');
  }

  /** The section sign, the last entry of the table, becomes the word "paragrafo". */
  lemma SanitizarSection()
    ensures Sanitizar("\U{a7}") == "paragrafo "
  {
    ReplaceAllChar('\U{a7}');
    assert Replacements[10] == ('\U{a7}', "paragrafo ");
  }

  /** `sanitizar_texto`: each replacement in turn, then every character beyond Latin-1 becomes '?'. */
  method SanitizarTexto(texto: string) returns (r: string)
    ensures r == Sanitizar(texto)
  {
    if texto == "" {
      return "";
    }
    var t := texto;
    for k := 0 to |Replacements|
      invariant ReplaceAll(Replacements, texto) == ReplaceAll(Replacements[k..], t)
    {
      assert Replacements[k..][1..] == Replacements[k + 1..];
      ReplaceOneChar(t, Replacements[k].0, Replacements[k].1);
      t := Replace(t, [Replacements[k].0], Replacements[k].1);
    }
    r := Latin1(t);
  }

  // ---------------------------------------------------------------------
  // Rows of the CSV and ODS reports
  // ---------------------------------------------------------------------

  /** The CSV header. */
  const CsvHeader: seq<string> := [
    "ID", "Pergunta", "Classificação", "Fundamentação", "Atende",
    "Disponibilidade", "Atualidade", "Série Histórica",
    "Gravação de Relatórios", "Filtro de Pesquisa",
    "Link de Evidência", "Observação"
  ]

  /** A CSV data row. */
  function CsvRow(r: Resultado): seq<string> {
    [
      CsvText(Get(r, "id", Text(""))),
      CsvText(Get(r, "pergunta", Text(""))),
      CsvText(Get(r, "classificacao", Text(""))),
      CsvText(Get(r, "fundamentacao", Text(""))),
      SimNao(Get(r, "atende", Flag(false))),
      SimNao(Get(r, "disponibilidade", Flag(false))),
      CsvText(Get(r, "atualidade", Text("N/A"))),
      CsvText(Get(r, "serieHistorica", Text("N/A"))),
      CsvText(Get(r, "gravacaoRelatorios", Text("N/A"))),
      CsvText(Get(r, "filtroPesquisa", Text("N/A"))),
      CsvText(Get(r, "linkEvidencia", Text(""))),
      CsvText(Get(r, "observacao", Text("")))
    ]
  }

  /** An ODS data row: column name and cell value, in the order of the dictionary. */
  function OdsRow(r: Resultado): seq<(string, Value)> {
    [
      ("ID", Get(r, "id", Text(""))),
      ("Pergunta", Get(r, "pergunta", Text(""))),
      ("Classificação", Get(r, "classificacao", Text(""))),
      ("Fundamentação", Get(r, "fundamentacao", Text(""))),
      ("Atende", Text(SimNao(Get(r, "atende", Flag(false))))),
      ("Disponibilidade", Text(SimNao(Get(r, "disponibilidade", Flag(false))))),
      ("Atualidade", Get(r, "atualidade", Text("N/A"))),
      ("Série Histórica", Get(r, "serieHistorica", Text("N/A"))),
      ("Gravação de Relatórios", Get(r, "gravacaoRelatorios", Text("N/A"))),
      ("Filtro de Pesquisa", Get(r, "filtroPesquisa", Text("N/A"))),
      ("Link de Evidência", Get(r, "linkEvidencia", Text(""))),
      ("Observação", Get(r, "observacao", Text("")))
    ]
  }

  /**
   * Every CSV row has the header's twelve columns, and the ODS sheet has the
   * same columns in the same order, holding the same cells.
   */
  lemma RowsAgree(r: Resultado)
    ensures |CsvRow(r)| == |CsvHeader| == |OdsRow(r)| == 12
    ensures forall i :: 0 <= i < 12 ==> OdsRow(r)[i].0 == CsvHeader[i] && CsvRow(r)[i] == CsvText(OdsRow(r)[i].1)
  {
  }

  /** The yes/no columns say "Sim" exactly when the value is truthy, and "Não" when it is missing. */
  lemma YesNoColumns(r: Resultado)
    ensures CsvRow(r)[4] == "Sim" <==> "atende" in r && Holds(r["atende"])
    ensures CsvRow(r)[5] == "Sim" <==> "disponibilidade" in r && Holds(r["disponibilidade"])
    ensures "atende" !in r ==> CsvRow(r)[4] == "Não"
  {
  }

  /** The whole CSV file: the header, then a row per result. */
  function CsvTable(rs: seq<Resultado>): (t: seq<seq<string>>)
    ensures |t| == |rs| + 1 && t[0] == CsvHeader
    ensures forall i :: 0 <= i < |t| ==> |t[i]| == 12
  {
    [CsvHeader] + seq(|rs|, i requires 0 <= i < |rs| => CsvRow(rs[i]))
  }

  /** `salvar_csv`: the header, then one `writerow` per result. */
  method SalvarCsv(rs: seq<Resultado>) returns (rows: seq<seq<string>>)
    ensures rows == CsvTable(rs)
  {
    rows := [CsvHeader];
    for i := 0 to |rs|
      invariant rows == [CsvHeader] + seq(i, j requires 0 <= j < i => CsvRow(rs[j]))
    {
      rows := rows + [CsvRow(rs[i])];
    }
  }

  // ---------------------------------------------------------------------
  // Optional fields in the TXT, PDF and XML reports
  // ---------------------------------------------------------------------

  /** `key in resultado and resultado[key]` */
  predicate Present(r: Resultado, key: string) {
    key in r && Holds(r[key])
  }

  /** The keys the TXT and PDF reports read without a default. */
  predicate HasRequired(r: Resultado) {
    "id" in r && "pergunta" in r && "classificacao" in r && "fundamentacao" in r && "atende" in r
  }

  /** The separator written after each result: a blank line, fifty dashes, a blank line. */
  function Separator(): string {
    "\n" + seq(50, _ => '-') + "\n\n"
  }

  /** The optional line for a key, when its value is there and truthy. */
  function OptionalLine(r: Resultado, key: string, rotulo: string): seq<string> {
    if Present(r, key) then [rotulo + Str(r[key]) + "\n"] else []
  }

  /** What `salvar_txt` writes for one result; a missing key raises. */
  function TxtEntry(r: Resultado): Option<seq<string>> {
    if !HasRequired(r) then None
    else Some([
      "ID: " + Str(r["id"]) + "\n",
      "Pergunta: " + Str(r["pergunta"]) + "\n",
      "Classificação: " + Str(r["classificacao"]) + "\n",
      "Fundamentação: " + Str(r["fundamentacao"]) + "\n",
      "Atende: " + SimNao(r["atende"]) + "\n"
    ] + OptionalLine(r, "observacao", "Observação: ") + OptionalLine(r, "linkEvidencia", "Link de Evidência: ") + [Separator()])
  }

  /** The child elements of an XML `Item`: tag and text. */
  function XmlItem(r: Resultado): seq<(string, Value)> {
    [
      ("ID", Get(r, "id", Text(""))),
      ("Pergunta", Get(r, "pergunta", Text(""))),
      ("Classificacao", Get(r, "classificacao", Text(""))),
      ("Fundamentacao", Get(r, "fundamentacao", Text(""))),
      ("Atende", Text(SimNao(Get(r, "atende", Flag(false)))))
    ] +
    (if Present(r, "observacao") then [("Observacao", r["observacao"])] else []) +
    (if Present(r, "linkEvidencia") then [("LinkEvidencia", r["linkEvidencia"])] else [])
  }

  /**
   * `ElementTree` writes an element's text only when it is truthy, so `None`,
   * "" and `False` leave the element empty; `True` reaches the escaping of
   * character data and makes `tree.write` raise `TypeError`.
   */
  predicate XmlOk(r: Resultado) {
    forall i :: 0 <= i < |XmlItem(r)| ==> XmlItem(r)[i].1 != Flag(true)
  }

  /**
   * The XML writer fails on a result exactly when one of the four fields it
   * reads with a default, or the observation, or the evidence link, holds
   * `True`.
   */
  lemma XmlOkKeys(r: Resultado)
    ensures XmlOk(r) <==>
      Get(r, "id", Text("")) != Flag(true) && Get(r, "pergunta", Text("")) != Flag(true) &&
      Get(r, "classificacao", Text("")) != Flag(true) && Get(r, "fundamentacao", Text("")) != Flag(true) &&
      !("observacao" in r && r["observacao"] == Flag(true)) &&
      !("linkEvidencia" in r && r["linkEvidencia"] == Flag(true))
  {
    var item := XmlItem(r);
    if Present(r, "observacao") {
      assert item[5] == ("Observacao", r["observacao"]);
    }
    if Present(r, "linkEvidencia") {
      assert item[|item| - 1] == ("LinkEvidencia", r["linkEvidencia"]);
    }
    if XmlOk(r) {
      assert item[0].1 != Flag(true) && item[1].1 != Flag(true) && item[2].1 != Flag(true) && item[3].1 != Flag(true);
    }
  }

  /** A `False` field is written as an empty element: it does not stop the XML report. */
  lemma XmlFalseIsWritten()
    ensures XmlOk(map["id" := Flag(false), "pergunta" := Text("p"), "classificacao" := Text("c"),
                      "fundamentacao" := Text("f"), "atende" := Flag(true)])
  {
    var r := map["id" := Flag(false), "pergunta" := Text("p"), "classificacao" := Text("c"),
                 "fundamentacao" := Text("f"), "atende" := Flag(true)];
    assert !Present(r, "observacao") && !Present(r, "linkEvidencia");
    assert XmlItem(r) == [("ID", Flag(false)), ("Pergunta", Text("p")), ("Classificacao", Text("c")),
                          ("Fundamentacao", Text("f")), ("Atende", Text("Sim"))];
  }

  /** The texts `salvar_pdf` writes for one result, each sanitised; a missing key raises. */
  function PdfEntry(r: Resultado): Option<seq<string>> {
    if !HasRequired(r) then None
    else Some([
      Sanitizar("ID: " + Str(r["id"]) + " - " + Str(r["pergunta"])),
      Sanitizar("Classificação: " + Str(r["classificacao"])),
      Sanitizar("Fundamentação: " + Str(r["fundamentacao"])),
      Sanitizar("Atende: " + SimNao(r["atende"]))
    ] +
    (if Present(r, "observacao") then [Sanitizar("Observação: " + Str(r["observacao"]))] else []) +
    (if Present(r, "linkEvidencia") then [Sanitizar("Link de Evidência: " + Str(r["linkEvidencia"]))] else []))
  }

  /** The XML item has an observation and an evidence link exactly when the result holds them. */
  lemma XmlOptionalFields(r: Resultado)
    ensures (exists i :: 0 <= i < |XmlItem(r)| && XmlItem(r)[i].0 == "Observacao") <==> Present(r, "observacao")
    ensures (exists i :: 0 <= i < |XmlItem(r)| && XmlItem(r)[i].0 == "LinkEvidencia") <==> Present(r, "linkEvidencia")
  {
    var item := XmlItem(r);
    if Present(r, "observacao") {
      assert item[5].0 == "Observacao";
    }
    if Present(r, "linkEvidencia") {
      assert item[|item| - 1].0 == "LinkEvidencia";
    }
  }

  /**
   * The TXT entry is five fixed lines, then the observation line exactly when
   * the result holds an observation, then the evidence line exactly when it
   * holds a link, then the separator.
   */
  lemma TxtOptionalFields(r: Resultado)
    requires HasRequired(r)
    ensures var e := TxtEntry(r).value;
      var n := 6 + (if Present(r, "observacao") then 1 else 0) + (if Present(r, "linkEvidencia") then 1 else 0);
      |e| == n && e[n - 1] == Separator() &&
      (Present(r, "observacao") ==> e[5] == "Observação: " + Str(r["observacao"]) + "\n") &&
      (Present(r, "linkEvidencia") ==> e[n - 2] == "Link de Evidência: " + Str(r["linkEvidencia"]) + "\n")
  {
  }

  /** The PDF writes six texts or fewer per result, one more for each optional field the result holds. */
  lemma PdfOptionalFields(r: Resultado)
    requires HasRequired(r)
    ensures |PdfEntry(r).value| == 4 + (if Present(r, "observacao") then 1 else 0) + (if Present(r, "linkEvidencia") then 1 else 0)
  {
  }

  // ---------------------------------------------------------------------
  // The generator
  // ---------------------------------------------------------------------

  /** The six report formats. */
  datatype Formato = Txt | Csv | Json | Pdf | Xml | Ods

  /** The extension, which is also the format's name in `gerar_todos_formatos`'s result. */
  function Extensao(f: Formato): (e: string)
    ensures |e| == 3 || |e| == 4
  {
    match f
    case Txt => "txt"
    case Csv => "csv"
    case Json => "json"
    case Pdf => "pdf"
    case Xml => "xml"
    case Ods => "ods"
  }

  /** The formats whose files are always produced when the TXT report can be written. */
  const Always: set<Formato> := {Txt, Csv, Json, Xml}

  /** The formats written: the four that cannot fail, then PDF and ODS unless their writers failed. */
  function Formatos(pdfFails: bool, odsFails: bool): (fs: set<Formato>)
    ensures Pdf in fs <==> !pdfFails
    ensures Ods in fs <==> !odsFails
    ensures Always <= fs
  {
    Always + (if pdfFails then {} else {Pdf}) + (if odsFails then {} else {Ods})
  }

  /** The path of the file of format `f`, named at the time `clock(f)`. */
  function CaminhoDe(diretorio: string, orgao: string, clock: Formato -> DateTime, f: Formato): string {
    Caminho(diretorio, orgao, Extensao(f), clock(f))
  }

  /** The files written, in the writers' order, with the given paths; PDF and ODS only when their writers did not fail. */
  function Gravados(txt: string, csv: string, json: string, pdf: string, xml: string, ods: string,
                    pdfFails: bool, odsFails: bool): (m: map<Formato, string>)
    ensures m.Keys == Formatos(pdfFails, odsFails)
    ensures m[Txt] == txt && m[Csv] == csv && m[Json] == json && m[Xml] == xml
    ensures !pdfFails ==> m[Pdf] == pdf
    ensures !odsFails ==> m[Ods] == ods
  {
    var m := map[Txt := txt];
    var m := m[Csv := csv];
    var m := m[Json := json];
    var m := if pdfFails then m else m[Pdf := pdf];
    var m := m[Xml := xml];
    if odsFails then m else m[Ods := ods]
  }

  /** The files written, each named at the time `clock(f)`. */
  function Escritos(diretorio: string, orgao: string, clock: Formato -> DateTime, pdfFails: bool, odsFails: bool)
    : (m: map<Formato, string>)
    ensures m.Keys == Formatos(pdfFails, odsFails)
    ensures forall f :: f in m ==> m[f] == CaminhoDe(diretorio, orgao, clock, f)
  {
    var m := Gravados(CaminhoDe(diretorio, orgao, clock, Txt), CaminhoDe(diretorio, orgao, clock, Csv),
                      CaminhoDe(diretorio, orgao, clock, Json), CaminhoDe(diretorio, orgao, clock, Pdf),
                      CaminhoDe(diretorio, orgao, clock, Xml), CaminhoDe(diretorio, orgao, clock, Ods), pdfFails, odsFails);
    assert forall f :: f in m ==> m[f] == CaminhoDe(diretorio, orgao, clock, f) by {
      forall f | f in m
        ensures m[f] == CaminhoDe(diretorio, orgao, clock, f)
      {
        if f == Txt {
        } else if f == Csv {
        } else if f == Json {
        } else if f == Pdf {
        } else if f == Xml {
        }
      }
    }
    m
  }

  /**
   * `gerar_todos_formatos(resultados, orgao)` as a value: `None` when the
   * TXT writer raises on a result without a required key or the XML writer
   * raises on a `True` text; otherwise a path per format written.
   * `clock(f)` is the time read when naming the file of format `f`.
   */
  function Arquivos(diretorio: string, rs: seq<Resultado>, orgao: string, clock: Formato -> DateTime,
                    pdfFails: bool, odsFails: bool): (a: Option<map<Formato, string>>)
    ensures a.Some? <==> forall i :: 0 <= i < |rs| ==> HasRequired(rs[i]) && XmlOk(rs[i])
    ensures a.Some? ==> a.value.Keys == Formatos(pdfFails, odsFails)
    ensures a.Some? ==> forall f :: f in a.value ==> a.value[f] == CaminhoDe(diretorio, orgao, clock, f)
  {
    if exists i :: 0 <= i < |rs| && !HasRequired(rs[i]) then None
    else if exists i :: 0 <= i < |rs| && !XmlOk(rs[i]) then None
    else Some(Escritos(diretorio, orgao, clock, pdfFails, odsFails))
  }

  /** A result whose id is `False` does not stop the reports: every format is written. */
  lemma FalseIdReportsWritten(diretorio: string, orgao: string, clock: Formato -> DateTime)
    ensures Arquivos(diretorio, [map["id" := Flag(false), "pergunta" := Text("p"), "classificacao" := Text("c"),
                                    "fundamentacao" := Text("f"), "atende" := Flag(true)]], orgao, clock, false, false).Some?
  {
    XmlFalseIsWritten();
  }

  /** The report generator and its output directory. */
  class Gerador {
    const diretorioSaida: string

    constructor(diretorioSaida: string)
      ensures this.diretorioSaida == diretorioSaida
    {
      this.diretorioSaida := diretorioSaida;
    }

    /** `gerar_nome_arquivo(orgao, formato)` */
    method GerarNomeArquivo(orgao: string, formato: string, now: DateTime) returns (caminho: string)
      ensures caminho == Caminho(diretorioSaida, orgao, formato, now)
    {
      var timestamp := Timestamp(now);
      var nome := "avaliacao_" + ReplaceChar(orgao, ' ', "_") + "_" + timestamp + "." + formato;
      caminho := PathJoin(diretorioSaida, nome);
    }

    /** The file name of each format written, asked for in the writers' order. */
    method NomearArquivos(orgao: string, clock: Formato -> DateTime, pdfFails: bool, odsFails: bool)
      returns (m: map<Formato, string>)
      ensures m == Escritos(diretorioSaida, orgao, clock, pdfFails, odsFails)
    {
      m := map[];
      m := Nomear(m, orgao, clock, Txt);
      m := Nomear(m, orgao, clock, Csv);
      m := Nomear(m, orgao, clock, Json);
      if !pdfFails {
        m := Nomear(m, orgao, clock, Pdf);
      }
      m := Nomear(m, orgao, clock, Xml);
      if !odsFails {
        m := Nomear(m, orgao, clock, Ods);
      }
    }

    /** Names the file of format `f` and records it. */
    method Nomear(m: map<Formato, string>, orgao: string, clock: Formato -> DateTime, f: Formato)
      returns (m': map<Formato, string>)
      ensures m' == m[f := CaminhoDe(diretorioSaida, orgao, clock, f)]
    {
      var p := GerarNomeArquivo(orgao, Extensao(f), clock(f));
      m' := m[f := p];
    }

    /** `gerar_todos_formatos(resultados, orgao)`: each writer in turn, the TXT and XML writers' failures raised, PDF and ODS failures swallowed. */
    method GerarTodosFormatos(rs: seq<Resultado>, orgao: string, clock: Formato -> DateTime, pdfFails: bool, odsFails: bool)
      returns (arquivos: Option<map<Formato, string>>)
      ensures arquivos == Arquivos(diretorioSaida, rs, orgao, clock, pdfFails, odsFails)
    {
      var i := 0;
      while i < |rs|
        invariant 0 <= i <= |rs|
        invariant forall j :: 0 <= j < i ==> HasRequired(rs[j])
      {
        if !HasRequired(rs[i]) {
          return None;
        }
        i := i + 1;
      }
      i := 0;
      while i < |rs|
        invariant 0 <= i <= |rs|
        invariant forall j :: 0 <= j < i ==> XmlOk(rs[j])
      {
        if !XmlOk(rs[i]) {
          return None;
        }
        i := i + 1;
      }
      var m := NomearArquivos(orgao, clock, pdfFails, odsFails);
      arquivos := Some(m);
    }
  }
}
