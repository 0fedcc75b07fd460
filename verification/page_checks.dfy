/**
 * The page heuristics of backend/scraper.py: which fiscal-management report
 * (RGF) is due on a date, whether a page mentions it, and the four checks on
 * a parsed page (recency, historical series, downloadable reports, search
 * widgets).
 */
module PageChecks {
  import opened Base
  import opened Dates
  import opened Html
  import opened Scraper

  // ---------------------------------------------------------------------
  // ultimo_quadrimestre_exigivel
  // ---------------------------------------------------------------------

  /** A four-month period of a year. */
  datatype Period = Period(year: int, quad: int)

  /** Tuple order on `(year, quad)`. */
  predicate PeriodLe(a: Period, b: Period) {
    a.year < b.year || (a.year == b.year && a.quad <= b.quad)
  }

  /** A period with the date its report falls due (the period's last day plus thirty days). */
  datatype Term = Term(period: Period, due: Date)

  /** `max(ps)` under tuple order. */
  function MaxPeriod(ps: seq<Period>): (m: Period)
    requires |ps| > 0
    ensures m in ps && forall k :: 0 <= k < |ps| ==> PeriodLe(ps[k], m)
  {
    if |ps| == 1 then ps[0]
    else
      var rest := MaxPeriod(ps[1..]);
      if PeriodLe(rest, ps[0]) then ps[0] else rest
  }

  /** The periods already due on `d`, in order. */
  function DueBy(terms: seq<Term>, d: Date): (ps: seq<Period>)
    ensures forall p :: p in ps <==> exists k :: 0 <= k < |terms| && terms[k].period == p && DateLe(terms[k].due, d)
  {
    if terms == [] then []
    else (if DateLe(terms[0].due, d) then [terms[0].period] else []) + DueBy(terms[1..], d)
  }

  /** The due dates of the periods, by calendar arithmetic. */
  lemma DueDates(y: int)
    ensures AddDays(Date(y, 4, 30), 30) == Date(y, 5, 30)
    ensures AddDays(Date(y, 8, 31), 30) == Date(y, 9, 30)
    ensures AddDays(Date(y, 12, 31), 30) == Date(y + 1, 1, 30)
  {
    AddDaysFromMonthEnd(Date(y, 4, 30), 30);
    AddDaysFromMonthEnd(Date(y, 8, 31), 30);
    AddDaysFromYearEnd(y, 30);
  }

  /** The closed form: the second period from September 30th, the first from May 30th, otherwise the third of last year. */
  function LatestDue(d: Date): Period {
    if DateLe(Date(d.year, 9, 30), d) then Period(d.year, 2)
    else if DateLe(Date(d.year, 5, 30), d) then Period(d.year, 1)
    else Period(d.year - 1, 3)
  }

  /** The four periods with their due dates, in the order the source lists them. */
  function TermsOf(y: int): seq<Term> {
    [Term(Period(y, 1), Date(y, 5, 30)), Term(Period(y, 2), Date(y, 9, 30)),
     Term(Period(y, 3), Date(y + 1, 1, 30)), Term(Period(y - 1, 3), Date(y, 1, 30))]
  }

  /** Which periods of `TermsOf` are due on a date of the same year. */
  lemma DueByMembers(d: Date)
    ensures var y := d.year; var ps := DueBy(TermsOf(y), d);
      (forall p :: p in ps ==> p == Period(y, 1) || p == Period(y, 2) || p == Period(y - 1, 3)) &&
      (Period(y, 1) in ps <==> DateLe(Date(y, 5, 30), d)) &&
      (Period(y, 2) in ps <==> DateLe(Date(y, 9, 30), d)) &&
      (Period(y - 1, 3) in ps <==> DateLe(Date(y, 1, 30), d))
  {
    var y := d.year;
    var ts := TermsOf(y);
    var ps := DueBy(ts, d);
    forall p | p in ps
      ensures (p == ts[0].period && DateLe(ts[0].due, d)) || (p == ts[1].period && DateLe(ts[1].due, d))
        || (p == ts[3].period && DateLe(ts[3].due, d))
    {
      var k :| 0 <= k < |ts| && ts[k].period == p && DateLe(ts[k].due, d);
      assert k != 2 by {
        assert ts[2].due.year == y + 1;
      }
    }
    if DateLe(ts[0].due, d) {
      assert ts[0].period in ps;
    }
    if DateLe(ts[1].due, d) {
      assert ts[1].period in ps;
    }
    if DateLe(ts[3].due, d) {
      assert ts[3].period in ps;
    }
  }

  /** The greatest period due by `d`, or the fallback, is the closed form. */
  lemma LatestDueIsMax(d: Date)
    requires ValidDate(d)
    ensures var ps := DueBy(TermsOf(d.year), d);
      (ps != [] ==> MaxPeriod(ps) == LatestDue(d)) && (ps == [] ==> LatestDue(d) == Period(d.year - 1, 3))
  {
    var y := d.year;
    var ps := DueBy(TermsOf(y), d);
    DueByMembers(d);
    if ps != [] {
      var m := MaxPeriod(ps);
      if DateLe(Date(y, 9, 30), d) {
        assert Period(y, 2) in ps;
        assert PeriodLe(Period(y, 2), m);
      } else if DateLe(Date(y, 5, 30), d) {
        assert Period(y, 1) in ps && Period(y, 2) !in ps;
        assert PeriodLe(Period(y, 1), m);
      } else {
        assert Period(y, 1) !in ps && Period(y, 2) !in ps;
      }
    }
  }

  /** The last day of each period of year `y`, in the order the source lists them. */
  function PeriodEnds(y: int): seq<Term> {
    [Term(Period(y, 1), Date(y, 4, 30)), Term(Period(y, 2), Date(y, 8, 31)), Term(Period(y, 3), Date(y, 12, 31))]
  }

  /** Thirty days after the end of a period is its due date in `TermsOf`, a valid date unless the year runs past 9999. */
  lemma PeriodEndDue(y: int, i: nat)
    requires 1 <= y <= 9999 && i < 3
    ensures AddDays(PeriodEnds(y)[i].due, 30) == TermsOf(y)[i].due
    ensures ValidDate(TermsOf(y)[i].due) <==> (i < 2 || y < 9999)
  {
    DueDates(y);
  }

  /**
   * `ultimo_quadrimestre_exigivel(d)`: builds the three periods of the year
   * and the third of the previous year with their due dates, keeps those due
   * by `d` and takes the greatest, falling back to the third of last year.
   * `None` stands for the exception raised when a date leaves the range of
   * Python's `date` (years 1 and 9999).
   */
  method UltimoQuadrimestreExigivel(d: Date) returns (r: Option<Period>)
    requires ValidDate(d)
    ensures r.None? <==> d.year == 1 || d.year == 9999
    ensures r.Some? ==> r.value == LatestDue(d) && r.value != Period(d.year, 3)
  {
    var ano := d.year;
    var ends := PeriodEnds(ano);
    var terms: seq<Term> := [];
    var i := 0;
    while i < |ends|
      invariant 0 <= i <= |ends| && terms == TermsOf(ano)[..i]
      invariant i == 3 ==> ano < 9999
    {
      PeriodEndDue(ano, i);
      var due := AddDays(ends[i].due, 30);
      if !ValidDate(due) {
        return None;
      }
      terms := terms + [Term(ends[i].period, due)];
      i := i + 1;
    }
    var prev := ano - 1;
    if prev < 1 {
      return None;
    }
    AddDaysFromYearEnd(prev, 30);
    terms := terms + [Term(Period(prev, 3), AddDays(Date(prev, 12, 31), 30))];
    assert terms == TermsOf(ano);
    var due := DueBy(terms, d);
    LatestDueIsMax(d);
    if due != [] {
      r := Some(MaxPeriod(due));
    } else {
      r := Some(Period(ano - 1, 3));
    }
  }

  // ---------------------------------------------------------------------
  // pagina_tem_atualidade
  // ---------------------------------------------------------------------

  /** `pagina_tem_atualidade(url, quadr)`: the normalized body mentions the RGF and the period. */
  predicate PaginaTemAtualidade(net: Net, url: string, quad: int) {
    var resp := net.get(url);
    Ok(resp) &&
      var texto := Normalize(if resp.page.body.Some? then resp.page.body.value else "");
      Contains(texto, "rgf") &&
      (Contains(texto, IntToString(quad) + "º quadrimestre") || Contains(texto, IntToString(quad) + "o quadrimestre"))
  }

  /** The spelling with the ordinal sign can never match: normalisation has already turned it into "o". */
  lemma PaginaTemAtualidadeOrdinal(net: Net, url: string, quad: int)
    ensures PaginaTemAtualidade(net, url, quad) <==>
      Ok(net.get(url)) &&
      Contains(Normalize(if net.get(url).page.body.Some? then net.get(url).page.body.value else ""), "rgf") &&
      Contains(Normalize(if net.get(url).page.body.Some? then net.get(url).page.body.value else ""), IntToString(quad) + "o quadrimestre")
  {
    var resp := net.get(url);
    if Ok(resp) {
      var body := if resp.page.body.Some? then resp.page.body.value else "";
      NormalizeFolded(body);
      var term := IntToString(quad) + "º quadrimestre";
      assert term[|IntToString(quad)|] == 'º';
      FoldedMiss(Normalize(body), term, |IntToString(quad)|);
    }
  }

  /** Neither spelling of "<n>º quadrimestre" occurs in a text without " quadrimestre". */
  lemma NoPeriodMention(texto: string, n: string)
    requires !Contains(texto, " quadrimestre")
    ensures !Contains(texto, n + "º quadrimestre") && !Contains(texto, n + "o quadrimestre")
  {
    assert n + "º quadrimestre" == (n + "º") + " quadrimestre";
    assert n + "o quadrimestre" == (n + "o") + " quadrimestre";
    if Contains(texto, (n + "º") + " quadrimestre") {
      ContainsSuffixOfNeedle(texto, n + "º", " quadrimestre");
    }
    if Contains(texto, (n + "o") + " quadrimestre") {
      ContainsSuffixOfNeedle(texto, n + "o", " quadrimestre");
    }
  }

  /** A page that mentions only the RGF, without the period, does not count. */
  lemma PaginaTemAtualidadeNeedsPeriod(net: Net, url: string, quad: int)
    requires Ok(net.get(url))
    requires !Contains(Normalize(if net.get(url).page.body.Some? then net.get(url).page.body.value else ""), " quadrimestre")
    ensures !PaginaTemAtualidade(net, url, quad)
  {
    NoPeriodMention(Normalize(if net.get(url).page.body.Some? then net.get(url).page.body.value else ""), IntToString(quad));
  }

  // ---------------------------------------------------------------------
  // check_atualidade
  // ---------------------------------------------------------------------

  /** The phrases that announce an update date. */
  const UpdatePhrases: seq<string> := [
    "dados atualizados em", "última atualização", "ultima atualizacao", "atualizacao",
    "atualizado em", "atualização", "atualizado"]

  predicate MentionsUpdate(tn: string) {
    exists k :: 0 <= k < |UpdatePhrases| && Contains(tn, UpdatePhrases[k])
  }

  /** The unaccented phrases each contain "atualizacao" or "atualizado". */
  lemma UnaccentedPhrasesReduce(tn: string)
    ensures Contains(tn, "dados atualizados em") ==> Contains(tn, "atualizado")
    ensures Contains(tn, "ultima atualizacao") ==> Contains(tn, "atualizacao")
    ensures Contains(tn, "atualizado em") ==> Contains(tn, "atualizado")
  {
    if Contains(tn, "dados atualizados em") {
      assert "dados atualizados em"[6..16] == "atualizado";
      ContainsPiece(tn, "dados atualizados em", "atualizado", 6);
    }
    if Contains(tn, "ultima atualizacao") {
      assert "ultima atualizacao"[7..18] == "atualizacao";
      ContainsPiece(tn, "ultima atualizacao", "atualizacao", 7);
    }
    if Contains(tn, "atualizado em") {
      assert "atualizado em"[0..10] == "atualizado";
      ContainsPiece(tn, "atualizado em", "atualizado", 0);
    }
  }

  /** In normalized text only "atualizacao" and "atualizado" matter: the others contain one of them or an accented letter. */
  lemma MentionsUpdateSimplified(t: string)
    ensures MentionsUpdate(Normalize(t)) <==> Contains(Normalize(t), "atualizacao") || Contains(Normalize(t), "atualizado")
  {
    var tn := Normalize(t);
    NormalizeFolded(t);
    var ps := UpdatePhrases;
    assert ps[0] == "dados atualizados em" && ps[1] == "última atualização" && ps[2] == "ultima atualizacao";
    assert ps[3] == "atualizacao" && ps[4] == "atualizado em" && ps[5] == "atualização" && ps[6] == "atualizado";
    FoldedMiss(tn, ps[1], 0);
    FoldedMiss(tn, ps[5], 8);
    UnaccentedPhrasesReduce(tn);
    if Contains(tn, "atualizacao") { assert Contains(tn, ps[3]); }
    if Contains(tn, "atualizado") { assert Contains(tn, ps[6]); }
  }

  /** `\d{2}/\d{2}/\d{4}` at index `i`. */
  predicate DateAt(t: string, i: nat) {
    i + 10 <= |t| && IsDigit(t[i]) && IsDigit(t[i + 1]) && t[i + 2] == '/' && IsDigit(t[i + 3]) && IsDigit(t[i + 4])
    && t[i + 5] == '/' && IsDigit(t[i + 6]) && IsDigit(t[i + 7]) && IsDigit(t[i + 8]) && IsDigit(t[i + 9])
  }

  /** `\d{2}:\d{2}:\d{2}` at index `j`. */
  predicate TimeAt(t: string, j: nat) {
    j + 8 <= |t| && IsDigit(t[j]) && IsDigit(t[j + 1]) && t[j + 2] == ':' && IsDigit(t[j + 3]) && IsDigit(t[j + 4])
    && t[j + 5] == ':' && IsDigit(t[j + 6]) && IsDigit(t[j + 7])
  }

  /** The leftmost date at or after `i`. */
  function FindDate(t: string, i: nat): (r: Option<nat>)
    ensures r.Some? ==> i <= r.value && DateAt(t, r.value) && forall j :: i <= j < r.value ==> !DateAt(t, j)
    ensures r.None? ==> forall j :: i <= j ==> !DateAt(t, j)
    decreases |t| - i
  {
    if i + 10 > |t| then None
    else if DateAt(t, i) then Some(i)
    else FindDate(t, i + 1)
  }

  /** Length of the run of whitespace starting at `j`. */
  function SpaceRun(t: string, j: nat): (n: nat)
    ensures j + n <= |t| || (j >= |t| && n == 0)
    ensures forall k :: j <= k < j + n ==> IsSpace(t[k])
    ensures j + n < |t| ==> !IsSpace(t[j + n])
    decreases |t| - j
  {
    if j < |t| && IsSpace(t[j]) then 1 + SpaceRun(t, j + 1) else 0
  }

  /** The match of `(\d{2}/\d{2}/\d{4})(?:\s+(\d{2}:\d{2}:\d{2}))?`: where the date starts and where the time starts, if any. */
  datatype Stamp = Stamp(date: nat, time: Option<nat>)

  function FindStamp(t: string): (r: Option<Stamp>)
    ensures r.Some? ==> DateAt(t, r.value.date) && (r.value.time.Some? ==> TimeAt(t, r.value.time.value))
    ensures r.None? <==> forall j :: 0 <= j ==> !DateAt(t, j)
  {
    var d := FindDate(t, 0);
    if d.None? then None
    else
      var j := d.value + 10;
      var n := SpaceRun(t, j);
      Some(Stamp(d.value, if n > 0 && TimeAt(t, j + n) then Some(j + n) else None))
  }

  function Two(t: string, i: nat): int
    requires i + 2 <= |t| && IsDigit(t[i]) && IsDigit(t[i + 1])
  {
    10 * DigitValue(t[i]) + DigitValue(t[i + 1])
  }

  /** The date and time `datetime.strptime` reads from a match, when it accepts them. */
  function ParseStamp(t: string, s: Stamp): (r: Option<DateTime>)
    requires DateAt(t, s.date) && (s.time.Some? ==> TimeAt(t, s.time.value))
    ensures r.Some? ==> ValidDate(r.value.date) && ValidTime(r.value.hour, r.value.minute, r.value.second)
  {
    var i := s.date;
    var date := Date(100 * Two(t, i + 6) + Two(t, i + 8), Two(t, i + 3), Two(t, i));
    var time := if s.time.Some? then
        (var j := s.time.value; (Two(t, j), Two(t, j + 3), Two(t, j + 6)))
      else (0, 0, 0);
    if ValidDate(date) && ValidTime(time.0, time.1, time.2) then Some(DateTime(date, time.0, time.1, time.2)) else None
  }

  /** The verdict on the first text node that announces an update. */
  function StampVerdict(t: string, now: DateTime): (r: bool)
    ensures r ==> FindStamp(t).Some?
  {
    var m := FindStamp(t);
    if m.None? then false
    else
      var dt := ParseStamp(t, m.value);
      dt.Some? && Instant(now) - Instant(dt.value) <= 30 * MicrosPerDay
  }

  /** Node `k` is the first that announces an update. */
  predicate FirstMention(strings: seq<string>, k: int) {
    0 <= k < |strings| && MentionsUpdate(Normalize(strings[k])) &&
    forall j :: 0 <= j < k ==> !MentionsUpdate(Normalize(strings[j]))
  }

  /** A first mention after a node that does not mention an update is a first mention of the longer list. */
  lemma FirstMentionShift(strings: seq<string>, k: int)
    requires strings != [] && !MentionsUpdate(Normalize(strings[0])) && FirstMention(strings[1..], k)
    ensures FirstMention(strings, k + 1) && strings[k + 1] == strings[1..][k]
  {
    assert forall j :: 1 <= j < k + 1 ==> strings[j] == strings[1..][j - 1];
  }

  /** A first mention past a head that does not mention an update is a first mention of the tail. */
  lemma FirstMentionUnshift(strings: seq<string>, k: int)
    requires strings != [] && !MentionsUpdate(Normalize(strings[0])) && FirstMention(strings, k)
    ensures k > 0 && FirstMention(strings[1..], k - 1) && strings[k] == strings[1..][k - 1]
  {
    assert forall j :: 0 <= j < k - 1 ==> strings[1..][j] == strings[j + 1];
  }

  /** `check_atualidade` as a value: the first node announcing an update decides; none means false. */
  function Atualidade(strings: seq<string>, now: DateTime): (r: bool)
    ensures r <==> exists k :: FirstMention(strings, k) && StampVerdict(strings[k], now)
  {
    if strings == [] then false
    else if MentionsUpdate(Normalize(strings[0])) then
      assert FirstMention(strings, 0);
      assert forall k :: FirstMention(strings, k) ==> k == 0;
      StampVerdict(strings[0], now)
    else
      var r := Atualidade(strings[1..], now);
      if r then
        var k :| FirstMention(strings[1..], k) && StampVerdict(strings[1..][k], now);
        FirstMentionShift(strings, k);
        r
      else
        forall k | FirstMention(strings, k) ensures !StampVerdict(strings[k], now) {
          FirstMentionUnshift(strings, k);
        }
        r
  }

  /** A date on or after the current moment always counts as recent. */
  lemma FutureStampIsRecent(t: string, now: DateTime)
    requires FindStamp(t).Some? && ParseStamp(t, FindStamp(t).value).Some?
    requires Instant(ParseStamp(t, FindStamp(t).value).value) >= Instant(now)
    ensures StampVerdict(t, now)
  {
  }

  /** `check_atualidade(soup)`: scan the text nodes and return at the first that announces an update. */
  method CheckAtualidade(page: Page, now: DateTime) returns (r: bool)
    ensures r == Atualidade(page.strings, now)
  {
    var strings := page.strings;
    var i := 0;
    while i < |strings|
      invariant 0 <= i <= |strings|
      invariant Atualidade(strings, now) == Atualidade(strings[i..], now)
    {
      assert strings[i..][1..] == strings[i + 1..];
      var t := strings[i];
      if MentionsUpdate(Normalize(t)) {
        var m := FindStamp(t);
        if m.None? {
          return false;
        }
        var dt := ParseStamp(t, m.value);
        if dt.None? {
          return false;
        }
        return Instant(now) - Instant(dt.value) <= 30 * MicrosPerDay;
      }
      i := i + 1;
    }
    return false;
  }

  // ---------------------------------------------------------------------
  // check_serie_historica
  // ---------------------------------------------------------------------

  /** The name of a year selector matches `ano|exercicio`, ignoring case. */
  predicate YearSelector(s: Select) {
    s.name.Some? && (Contains(Lower(s.name.value), "ano") || Contains(Lower(s.name.value), "exercicio"))
  }

  /** The first year selector of the page. */
  function FirstYearSelector(selects: seq<Select>): (r: Option<Select>)
    ensures r.Some? ==> YearSelector(r.value)
    ensures r.Some? ==> exists k :: 0 <= k < |selects| && selects[k] == r.value && forall j :: 0 <= j < k ==> !YearSelector(selects[j])
    ensures r.None? <==> forall k :: 0 <= k < |selects| ==> !YearSelector(selects[k])
  {
    if selects == [] then None
    else if YearSelector(selects[0]) then Some(selects[0])
    else
      var r := FirstYearSelector(selects[1..]);
      if r.Some? then
        var k :| 0 <= k < |selects[1..]| && selects[1..][k] == r.value && forall j :: 0 <= j < k ==> !YearSelector(selects[1..][j]);
        FirstShift(selects, k, (s: Select) => YearSelector(s));
        r
      else
        assert forall j :: 0 < j < |selects| ==> selects[j] == selects[1..][j - 1];
        r
  }

  /** The years offered by a selector: the options whose value is a non-empty run of digits. */
  function OptionYears(s: Select): (ys: set<int>)
    ensures forall y :: y in ys <==> exists k :: (0 <= k < |s.options| && s.options[k].Some?
      && s.options[k].value != [] && AllDigits(s.options[k].value) && ParseDigits(s.options[k].value) == y)
  {
    set k | 0 <= k < |s.options| && s.options[k].Some? && s.options[k].value != [] && AllDigits(s.options[k].value)
      :: ParseDigits(s.options[k].value)
  }

  /** Python's `\w` for ASCII and Latin-1 characters (other characters count as non-word here). */
  predicate IsWordChar(c: char) {
    ('a' <= c <= 'z') || ('A' <= c <= 'Z') || IsDigit(c) || c == '_' || c == 'ª' || c == '²' || c == '³' || c == 'µ'
    || c == '¹' || c == 'º' || ('¼' <= c <= '¾') || ('À' <= c <= 'ÿ' && c != '×' && c != '÷')
  }

  /** `\b(20\d{2})\b` at index `i`. */
  predicate YearTokenAt(t: string, i: nat) {
    i + 4 <= |t| && t[i] == '2' && t[i + 1] == '0' && IsDigit(t[i + 2]) && IsDigit(t[i + 3])
    && (i == 0 || !IsWordChar(t[i - 1])) && (i + 4 == |t| || !IsWordChar(t[i + 4]))
  }

  /** The year a `20dd` token at `i` stands for. */
  function TokenYear(t: string, i: nat): int
    requires YearTokenAt(t, i)
  {
    2000 + 10 * DigitValue(t[i + 2]) + DigitValue(t[i + 3])
  }

  /** The years written as stand-alone `20dd` tokens in the text. */
  function TextYears(t: string): (ys: set<int>)
    ensures forall y :: y in ys ==> 2000 <= y <= 2099
    ensures forall y :: y in ys <==> exists i :: 0 <= i < |t| && YearTokenAt(t, i) && TokenYear(t, i) == y
  {
    set i | 0 <= i < |t| && YearTokenAt(t, i) :: TokenYear(t, i)
  }

  /** The selector has an option whose value is a run of digits spelling `y`. */
  predicate OptionOffers(s: Select, y: int) {
    exists k :: 0 <= k < |s.options| && s.options[k].Some? && s.options[k].value != []
      && AllDigits(s.options[k].value) && ParseDigits(s.options[k].value) == y
  }

  /** The text has a stand-alone `20dd` token spelling `y`. */
  predicate TextMentions(t: string, y: int) {
    exists i :: 0 <= i < |t| && YearTokenAt(t, i) && TokenYear(t, i) == y
  }

  /** The three years before `ano`. */
  function PreviousThree(ano: int): set<int> {
    {ano - 1, ano - 2, ano - 3}
  }

  /** `check_serie_historica(soup, ano)` */
  function CheckSerieHistorica(page: Page, ano: int): (r: bool)
    ensures FirstYearSelector(page.selects).None? && (ano - 3 < 2000 || ano - 1 > 2099) ==> !r
  {
    var sel := FirstYearSelector(page.selects);
    if sel.Some? then PreviousThree(ano) <= OptionYears(sel.value)
    else PreviousThree(ano) <= TextYears(page.text)
  }

  /** A year selector offering the three previous years, written in decimal, passes. */
  lemma SerieHistoricaFromOptions(page: Page, ano: int, k1: nat, k2: nat, k3: nat)
    requires ano >= 4
    requires FirstYearSelector(page.selects).Some?
    requires var s := FirstYearSelector(page.selects).value;
      k1 < |s.options| && k2 < |s.options| && k3 < |s.options| &&
      s.options[k1] == Some(NatToString(ano - 1)) && s.options[k2] == Some(NatToString(ano - 2)) &&
      s.options[k3] == Some(NatToString(ano - 3))
    ensures CheckSerieHistorica(page, ano)
  {
    var s := FirstYearSelector(page.selects).value;
    ParseNatToString(ano - 1);
    ParseNatToString(ano - 2);
    ParseNatToString(ano - 3);
    assert ano - 1 in OptionYears(s);
    assert ano - 2 in OptionYears(s);
    assert ano - 3 in OptionYears(s);
  }

  /** With a year selector, the check passes exactly when its options offer each of the three previous years. */
  lemma SerieHistoricaOptionsIff(page: Page, ano: int)
    requires FirstYearSelector(page.selects).Some?
    ensures CheckSerieHistorica(page, ano) <==>
      forall y :: ano - 3 <= y <= ano - 1 ==> OptionOffers(FirstYearSelector(page.selects).value, y)
  {
    var s := FirstYearSelector(page.selects).value;
    var ys := OptionYears(s);
    assert forall y :: y in ys <==> OptionOffers(s, y);
    if CheckSerieHistorica(page, ano) {
      forall y | ano - 3 <= y <= ano - 1
        ensures OptionOffers(s, y)
      {
        assert y in PreviousThree(ano);
      }
    }
  }

  /** Without a year selector, the check passes exactly when the text holds a `20dd` token for each of the three previous years. */
  lemma SerieHistoricaTextIff(page: Page, ano: int)
    requires FirstYearSelector(page.selects).None?
    ensures CheckSerieHistorica(page, ano) <==>
      forall y :: ano - 3 <= y <= ano - 1 ==> TextMentions(page.text, y)
  {
    var ys := TextYears(page.text);
    assert forall y :: y in ys <==> TextMentions(page.text, y);
    if CheckSerieHistorica(page, ano) {
      forall y | ano - 3 <= y <= ano - 1
        ensures TextMentions(page.text, y)
      {
        assert y in PreviousThree(ano);
      }
    }
  }

  /** A year selector missing one of the three previous years fails, whatever the text says. */
  lemma SerieHistoricaMissingOption(page: Page, ano: int, y: int)
    requires FirstYearSelector(page.selects).Some?
    requires ano - 3 <= y <= ano - 1 && !OptionOffers(FirstYearSelector(page.selects).value, y)
    ensures !CheckSerieHistorica(page, ano)
  {
    SerieHistoricaOptionsIff(page, ano);
  }

  /** Once a year selector exists the text is not consulted: the options alone decide. */
  lemma SerieHistoricaSelectorDecides(page: Page, ano: int, text: string)
    requires FirstYearSelector(page.selects).Some?
    ensures CheckSerieHistorica(page, ano) == CheckSerieHistorica(page.(text := text), ano)
  {
  }

  // ---------------------------------------------------------------------
  // check_gravacao_relatorios
  // ---------------------------------------------------------------------

  const DownloadFormats: seq<string> := [".xls", ".xlsx", ".csv", ".txt", ".odt", ".ods", ".rtf", ".json", ".pdf"]
  const DownloadWords: seq<string> := ["download", "exportar", "baixar", "salvar", "gerar"]

  /** The lower-cased href contains one of the file extensions. */
  predicate DownloadHref(href: string) {
    ContainsAny(Lower(href), DownloadFormats)
  }

  /** The normalized text contains one of the download words. */
  predicate DownloadText(text: string) {
    ContainsAny(Normalize(text), DownloadWords)
  }

  /** Some link's address names a file format. */
  predicate HrefDownload(anchors: seq<Anchor>) {
    exists k :: 0 <= k < |anchors| && anchors[k].href.Some? && DownloadHref(anchors[k].href.value)
  }

  /** Some link invites to download, export or save. */
  predicate AnchorTextDownload(anchors: seq<Anchor>)
    ensures AnchorTextDownload(anchors) <==> exists k :: 0 <= k < |anchors| && DownloadText(anchors[k].text)
  {
    anchors != [] && (DownloadText(anchors[0].text) || AnchorTextDownload(anchors[1..]))
  }

  /** Some button invites to download, export or save. */
  predicate ButtonTextDownload(buttons: seq<Button>)
    ensures ButtonTextDownload(buttons) <==> exists k :: 0 <= k < |buttons| && DownloadText(buttons[k].text)
  {
    buttons != [] && (DownloadText(buttons[0].text) || ButtonTextDownload(buttons[1..]))
  }

  predicate TextDownload(anchors: seq<Anchor>, buttons: seq<Button>) {
    AnchorTextDownload(anchors) || ButtonTextDownload(buttons)
  }

  /** `check_gravacao_relatorios(soup)` as a value. */
  predicate GravacaoRelatorios(page: Page) {
    HrefDownload(page.anchors) || TextDownload(page.anchors, page.buttons)
  }

  /** A link whose address ends in one of the extensions is a download link. */
  lemma EndsWithFormatIsDownload(page: Page, k: nat, f: nat)
    requires k < |page.anchors| && page.anchors[k].href.Some? && f < |DownloadFormats|
    requires IsSuffix(DownloadFormats[f], Lower(page.anchors[k].href.value))
    ensures GravacaoRelatorios(page)
  {
    var h := Lower(page.anchors[k].href.value);
    assert OccursAt(h, DownloadFormats[f], |h| - |DownloadFormats[f]|);
    ContainsIffOccurs(h, DownloadFormats[f]);
    assert DownloadHref(page.anchors[k].href.value);
  }

  /** The first loop of `check_gravacao_relatorios`: over the links with an href. */
  method ScanHrefs(anchors: seq<Anchor>) returns (found: bool)
    ensures found == HrefDownload(anchors)
  {
    var i := 0;
    while i < |anchors|
      invariant 0 <= i <= |anchors|
      invariant forall k :: 0 <= k < i ==> !(anchors[k].href.Some? && DownloadHref(anchors[k].href.value))
    {
      if anchors[i].href.Some? && DownloadHref(anchors[i].href.value) {
        return true;
      }
      i := i + 1;
    }
    return false;
  }

  /** The second loop of `check_gravacao_relatorios`: over the texts of links and buttons. */
  method ScanTexts(anchors: seq<Anchor>, buttons: seq<Button>) returns (found: bool)
    ensures found == TextDownload(anchors, buttons)
  {
    var i := 0;
    while i < |anchors|
      invariant 0 <= i <= |anchors|
      invariant AnchorTextDownload(anchors) == AnchorTextDownload(anchors[i..])
    {
      assert anchors[i..][1..] == anchors[i + 1..];
      if DownloadText(anchors[i].text) {
        return true;
      }
      i := i + 1;
    }
    i := 0;
    while i < |buttons|
      invariant 0 <= i <= |buttons|
      invariant ButtonTextDownload(buttons) == ButtonTextDownload(buttons[i..])
    {
      assert buttons[i..][1..] == buttons[i + 1..];
      if DownloadText(buttons[i].text) {
        return true;
      }
      i := i + 1;
    }
    return false;
  }

  /** `check_gravacao_relatorios(soup)`: the href loop first, then the text loop. */
  method CheckGravacaoRelatorios(page: Page) returns (r: bool)
    ensures r == GravacaoRelatorios(page)
  {
    r := ScanHrefs(page.anchors);
    if !r {
      r := ScanTexts(page.anchors, page.buttons);
    }
  }

  // ---------------------------------------------------------------------
  // check_filtro_pesquisa
  // ---------------------------------------------------------------------

  /** `re.search(r'pesquisa|search|filtro|busca', s, re.I)` */
  predicate SearchHint(s: string) {
    var l := Lower(s);
    Contains(l, "pesquisa") || Contains(l, "search") || Contains(l, "filtro") || Contains(l, "busca")
  }

  /** `re.search(r'filtrar|pesquisar|buscar', s, re.I)` */
  predicate FilterHint(s: string) {
    var l := Lower(s);
    Contains(l, "filtrar") || Contains(l, "pesquisar") || Contains(l, "buscar")
  }

  predicate SearchInput(i: Input) {
    i.kind == Some("search") || (i.placeholder.Some? && SearchHint(i.placeholder.value))
    || (i.ariaLabel.Some? && SearchHint(i.ariaLabel.value))
  }

  /** `check_filtro_pesquisa(soup)`: a search input, any select, or a link or button whose own text asks to filter or search. */
  function CheckFiltroPesquisa(page: Page): (r: bool)
    ensures |page.selects| > 0 ==> r
    ensures r ==> |page.inputs| > 0 || |page.selects| > 0 || |page.anchors| > 0 || |page.buttons| > 0
  {
    (exists k :: 0 <= k < |page.inputs| && SearchInput(page.inputs[k]))
    || |page.selects| > 0
    || (exists k :: 0 <= k < |page.anchors| && page.anchors[k].ownString.Some? && FilterHint(page.anchors[k].ownString.value))
    || (exists k :: 0 <= k < |page.buttons| && page.buttons[k].ownString.Some? && FilterHint(page.buttons[k].ownString.value))
  }

  /** An input of type `search` passes. */
  lemma FiltroSearchType(page: Page, k: nat)
    requires k < |page.inputs| && page.inputs[k].kind == Some("search")
    ensures CheckFiltroPesquisa(page)
  {
    assert SearchInput(page.inputs[k]);
  }

  /** An input whose placeholder mentions searching or filtering passes. */
  lemma FiltroPlaceholder(page: Page, k: nat)
    requires k < |page.inputs| && page.inputs[k].placeholder.Some? && SearchHint(page.inputs[k].placeholder.value)
    ensures CheckFiltroPesquisa(page)
  {
    assert SearchInput(page.inputs[k]);
  }

  /** An input whose `aria-label` mentions searching or filtering passes. */
  lemma FiltroAriaLabel(page: Page, k: nat)
    requires k < |page.inputs| && page.inputs[k].ariaLabel.Some? && SearchHint(page.inputs[k].ariaLabel.value)
    ensures CheckFiltroPesquisa(page)
  {
    assert SearchInput(page.inputs[k]);
  }

  /** A link whose own string asks to filter or search passes. */
  lemma FiltroAnchorOwnString(page: Page, k: nat)
    requires k < |page.anchors| && page.anchors[k].ownString.Some? && FilterHint(page.anchors[k].ownString.value)
    ensures CheckFiltroPesquisa(page)
  {
  }

  /** A button whose own string asks to filter or search passes. */
  lemma FiltroButtonOwnString(page: Page, k: nat)
    requires k < |page.buttons| && page.buttons[k].ownString.Some? && FilterHint(page.buttons[k].ownString.value)
    ensures CheckFiltroPesquisa(page)
  {
  }

  /** The converse: with none of the five signs, the check fails. */
  lemma FiltroNothingFails(page: Page)
    requires page.selects == []
    requires forall k :: 0 <= k < |page.inputs| ==>
      page.inputs[k].kind != Some("search")
      && (page.inputs[k].placeholder.None? || !SearchHint(page.inputs[k].placeholder.value))
      && (page.inputs[k].ariaLabel.None? || !SearchHint(page.inputs[k].ariaLabel.value))
    requires forall k :: 0 <= k < |page.anchors| ==> page.anchors[k].ownString.None? || !FilterHint(page.anchors[k].ownString.value)
    requires forall k :: 0 <= k < |page.buttons| ==> page.buttons[k].ownString.None? || !FilterHint(page.buttons[k].ownString.value)
    ensures !CheckFiltroPesquisa(page)
  {
  }

  /** A placeholder "Busca" is recognised whatever its case. */
  lemma FiltroBuscaPlaceholder()
    ensures SearchHint("Busca")
  {
    assert Lower("Busca") == "busca";
    assert Lower("Busca")[0..5] == "busca";
  }

  /** A button labelled with a filter word is only recognised through its own string, not through nested text. */
  lemma FilterButtonNeedsOwnString(page: Page)
    requires page.inputs == [] && page.selects == []
    requires forall k :: 0 <= k < |page.anchors| ==> page.anchors[k].ownString.None?
    requires forall k :: 0 <= k < |page.buttons| ==> page.buttons[k].ownString.None?
    ensures !CheckFiltroPesquisa(page)
  {
  }
}
