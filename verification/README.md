# Transparency-portal evaluator: URL resolution and content checks

This project models the decision core of the back end of a system that grades
the transparency portals of public bodies in the state of Amazonas. For a body,
the system finds its official site and its transparency portal. It then checks
each question of the evaluation catalogue against a page and streams one result
record per question. It also writes the reports.

The model covers, one Dafny module per Python file:

- **Scraper, SearchCache, PageChecks** (`backend/scraper.py`):
  - text normalisation and the availability probe;
  - the UG official-site search and the collection of transparency links from a page;
  - the 50 % keyword rule of `verificar_item`;
  - the search cache with its strict seven-day window, and the tiered search in front of it;
  - the due four-month RGF period;
  - the recency, historical-series, downloadable-report and search-widget page checks.
- **KnownUrls, UgConfig, AmazonasPortals**: the name-to-URL lookups. These are the static registry, the UG table and the spreadsheet of municipalities.
- **App** (`backend/app.py`):
  - the criterion-sheet lookup and the per-criterion endpoint;
  - the busy flag and the result queue;
  - the official-site and portal ladders and the per-question address choice;
  - the result records and the ordered message stream with its progress values.
- **LinkFinder**: the database-then-web link search with alternatives, the link check and the database upsert.
- **VerificadorSiteOficial**: the official-site decision rule and its evidence.
- **VerificadorNovo**: keyword extraction, page scoring, the best-page search with link exploration, and the evaluation of a body.
- **GeradorRelatorios**: file naming, the Latin-1 sanitiser of the PDF, the CSV/ODS rows, the optional fields and the tolerant writing of all formats.
- **ImportData**: the spreadsheet import, covering body classification, municipality deduplication and link clean-up.

Three more modules hold shared vocabulary:

- **Base**: Python's string operations over `seq<char>`.
- **Html**: parsed pages and HTTP outcomes.
- **Dates**: Gregorian dates as `datetime` uses them.

The web is represented by deterministic oracles:

- `Net` answers HTTP requests.
- `Engines` and the browser records give search results.
- The clock is a parameter.

Code that changes state is modelled with classes and methods, each proved against a function of the old state:

- the search cache;
- the back end's flag and queue;
- the link finder's database;
- the evaluator's fields;
- the report generator;
- the import session.

## Model

| member | source | states |
|---|---|---|
| Scraper.Normalize | backend/scraper.py:50-54 | the normalized text is no longer than its transliteration (stripping only removes characters) |
| Scraper.UnidecodeOfFolded | backend/scraper.py:50-54 | transliteration leaves text that is already transliterated unchanged |
| Scraper.NormalizeFolded | backend/scraper.py:50-54 | normalized text holds no upper-case ASCII letter and nothing transliteration would change |
| Scraper.LowerOfLower | backend/scraper.py:54 | lower-casing twice is lower-casing once |
| Scraper.LowerCharSpace | backend/scraper.py:54 | lower-casing a character keeps it a space or a non-space |
| Scraper.LowerKeepsStripped | backend/scraper.py:54 | lower-casing a stripped string leaves it stripped |
| Scraper.NormalizeIdempotent | backend/scraper.py:50-54 | normalizing twice is normalizing once |
| Scraper.DirectDomains | backend/scraper.py:270-275 | four direct addresses are tried for a UG |
| Scraper.IsAvailable | backend/scraper.py:240-250 | `verificar_disponibilidade_simples`: an empty URL is unavailable, a request that raises is unavailable, and only status 200 counts; used by `VerificarItem` and the address ladders |
| Scraper.FirstHeadOk | backend/scraper.py:277-286 | the address chosen answers a HEAD request below 400 and every address tried before it does not; none is chosen iff none answers so |
| Scraper.FirstMatching | backend/scraper.py:292-296 | the URL chosen is a search result matching the expected domain pattern and no earlier result matches; none is chosen iff no result matches |
| Scraper.PatternSearch | backend/scraper.py:294 | a case-insensitive search for the expected-domain pattern anywhere in the URL, `.` matching any character but a newline |
| Scraper.FirstHit | backend/scraper.py:292-296 | the URL is the first search result matching the pattern |
| Scraper.SiteUgSpec | backend/scraper.py:252-301 | `ValueError` iff neither `ug` nor `query` is given; the first direct address answering HEAD below 400 wins, with no search and the cache unchanged; otherwise the search runs on the given or default query, and the verdict is its first result matching the given or default pattern, or a miss listing every result, none of which matches |
| Scraper.ProbeDirect | backend/scraper.py:277-286 | the loop over the direct addresses computes `FirstHeadOk` |
| Scraper.ScanResults | backend/scraper.py:289-301 | the loop over the search results returns the first match, or every URL visited |
| Scraper.VerificaSiteUg | backend/scraper.py:252-301 | the verdict and the cache afterwards are those of `SiteUgSpec` on the cache before |
| Scraper.FoldedMiss | backend/scraper.py:333-338 | a keyword holding a character transliteration never leaves cannot occur in normalized text |
| Scraper.PortalKeywordImplies | backend/scraper.py:27-34 | a text containing "portal da transparencia" contains "transparencia" |
| Scraper.NormalizedKeywordHit | backend/scraper.py:333-338 | in normalized text some of the six keywords occurs iff "transparencia" or "acesso a informacao" occurs |
| Scraper.KeywordInNormalized | backend/scraper.py:337-338 | any keyword found in normalized text means one of the two unaccented ones is there |
| Scraper.AccentedKeywords | backend/scraper.py:27-34 | each accented keyword holds a letter transliteration never produces |
| Scraper.KeywordHitSimplified | backend/scraper.py:333-338 | an anchor is kept iff its normalized text or href contains "transparencia" or "acesso a informacao" |
| Scraper.HostLength | backend/scraper.py:345 | the host part ends before the first `/` |
| Scraper.Root | backend/scraper.py:345-347 | the scheme-and-host match is a prefix of the URL and has an `http`/`https` scheme |
| Scraper.RStripKeepsPrefix | backend/scraper.py:350 | `rstrip('/')` never cuts into a prefix that does not end in `/` |
| Scraper.PrefixOfConcat | backend/scraper.py:347-350 | a prefix of a string is a prefix of any extension of it |
| Scraper.ResolveIsAbsolute | backend/scraper.py:339-350 | against a page address with a scheme and a host, every resolved href has a scheme |
| Scraper.Resolve | backend/scraper.py:339-350 | an href with a scheme is kept, one starting with `/` goes after the page's scheme and host (and is kept as it is when the page address has none), any other after the page address without its trailing slashes; `ResolveIsAbsolute` states the result is absolute |
| Scraper.LinksIn | backend/scraper.py:332-356 | there are never more links than anchors |
| Scraper.WithScheme | backend/scraper.py:309-310 | the address fetched has a scheme, and one that had a scheme is unchanged |
| Scraper.TransparencyLinks | backend/scraper.py:303-359 | `find_transparency_links` as a value: nothing when the page cannot be fetched, else `LinksIn` on its anchors; `FindTransparencyLinks` computes it |
| Scraper.KeywordHit | backend/scraper.py:332-338 | some transparency keyword occurs in the normalized anchor text or the normalized href |
| Scraper.LinksInSound | backend/scraper.py:332-356 | every link comes from an anchor with an href and a keyword, and carries its stripped text and resolved href |
| Scraper.LinksInCount | backend/scraper.py:332-356 | there is exactly one link per kept anchor (the keyword loop breaks after the first hit) |
| Scraper.HasKeyword | backend/scraper.py:337-356 | the keyword loop answers `KeywordHit` of the normalized text and href |
| Scraper.FindTransparencyLinks | backend/scraper.py:303-359 | the anchor loop computes `TransparencyLinks`; on a page whose address has a host, every link found has a scheme |
| Scraper.QuestionKeywords | backend/scraper.py:1437 | every keyword taken from the question is longer than three characters |
| Scraper.LongWords | backend/scraper.py:1437 | exactly the words longer than three characters are kept |
| Scraper.CountPresent | backend/scraper.py:1440 | the count is at most the number of keywords; it is full iff every keyword occurs and zero iff none does |
| Scraper.VerificarItem | backend/scraper.py:1411-1445 | a positive verdict needs an available page; an available page satisfies any question about the "sítio oficial"; otherwise a question about the "portal da transparência" is met iff the page has transparency links |
| Scraper.VerificarItemKeywordRule | backend/scraper.py:1428-1441 | for other questions the verdict is exactly "at least half of the long question words occur in the normalized page text" |
| Scraper.HalfPresent | backend/scraper.py:1440-1441 | at least half of the long question words occur in the page text |
| SearchCache.LookupIn | backend/scraper.py:71-81 | a cached result is served iff the query has an entry younger than seven days, and it is that entry's list |
| SearchCache.Cache.constructor | backend/scraper.py:56-64 | the cache starts with the contents loaded from its file (given) |
| SearchCache.Cache.Put | backend/scraper.py:83-93 | the entry for the query is overwritten by the results stamped now; nothing else changes |
| SearchCache.Cache.Search | backend/scraper.py:207-238 | the results and the cache afterwards are those of `SearchOutcome` on the cache before |
| SearchCache.SearchOutcome | backend/scraper.py:207-238 | a fresh non-empty cached list is served truncated; else the first engine, DuckDuckGo then the browser, to return a non-empty list is cached and served truncated; else nothing, cache unchanged |
| SearchCache.LookupAfterPut | backend/scraper.py:71-93 | reading back a written entry gives its results exactly while it is younger than seven days |
| SearchCache.PutKeepsOtherQueries | backend/scraper.py:83-93 | writing one query leaves every other query's lookup unchanged |
| SearchCache.SearchBounded | backend/scraper.py:207-238 | the search never returns more than `num_results` URLs |
| SearchCache.SearchCacheHit | backend/scraper.py:212-215 | a fresh non-empty entry is served truncated, no engine is consulted and the cache is unchanged |
| SearchCache.SearchWritesNonEmpty | backend/scraper.py:217-233 | the cache is unchanged, or changes only at the query to a non-empty list stamped now, and the results are that list truncated to `num_results` |
| SearchCache.SearchTotalFailure | backend/scraper.py:228-238 | with nothing usable cached and both engines failing or finding nothing, the result is [] and the cache is unchanged |
| Dates.NextDay | backend/scraper.py:1479 | the day after a well-formed date is a well-formed date |
| Dates.AddDays | backend/scraper.py:1479 | adding days to a well-formed date gives a well-formed date |
| Dates.AddDaysWithinMonth | backend/scraper.py:1479 | days that stay inside the month only move the day field |
| Dates.AddDaysFromMonthEnd | backend/scraper.py:1479 | from the last day of a month other than December, n days (within the next month's length) land on day n of the next month |
| Dates.AddDaysFromYearEnd | backend/scraper.py:1485 | n days after December 31st (n up to 31) land on January n of the next year |
| PageChecks.MaxPeriod | backend/scraper.py:1492 | `max` under tuple order is one of the periods and no period is greater |
| PageChecks.DueBy | backend/scraper.py:1488 | a period is kept iff some listed period with that value falls due on or before the date |
| PageChecks.DueDates | backend/scraper.py:1470-1480 | the periods fall due on May 30th, September 30th and January 30th of the next year |
| PageChecks.LatestDue | backend/scraper.py:1463-1493 | the closed form of the latest period due: the second from September 30th, the first from May 30th, otherwise the third of the previous year; `LatestDueIsMax` proves it is the source's maximum |
| PageChecks.LatestDueIsMax | backend/scraper.py:1463-1493 | the greatest period due by the date, or the fallback, is the second period from September 30th, the first from May 30th, otherwise the third of the previous year |
| PageChecks.PeriodEndDue | backend/scraper.py:1470-1480 | thirty days after each period's last day is its due date, a valid date except the third period of year 9999 |
| PageChecks.UltimoQuadrimestreExigivel | backend/scraper.py:1463-1493 | the exception (out-of-range date) happens exactly for years 1 and 9999; otherwise the result is the closed form, and never the current year's third period |
| PageChecks.PaginaTemAtualidadeOrdinal | backend/scraper.py:1495-1517 | the verdict is "the page loads, its normalized body contains "rgf" and "<n>o quadrimestre""; the "º" spelling can never match normalized text |
| PageChecks.NoPeriodMention | backend/scraper.py:1511-1516 | a text without " quadrimestre" contains neither spelling of the period |
| PageChecks.PaginaTemAtualidadeNeedsPeriod | backend/scraper.py:1514-1517 | a page mentioning the RGF without the period does not count |
| PageChecks.PaginaTemAtualidade | backend/scraper.py:1495-1517 | the fetched, normalized body mentions "rgf" and the period as `<n>º quadrimestre` or `<n>o quadrimestre`; properties in `PaginaTemAtualidadeOrdinal`, `NoPeriodMention` and `PaginaTemAtualidadeNeedsPeriod` |
| PageChecks.UnaccentedPhrasesReduce | backend/scraper.py:37-41 | each longer unaccented update phrase contains "atualizacao" or "atualizado" |
| PageChecks.MentionsUpdateSimplified | backend/scraper.py:1530-1531 | a normalized text node announces an update iff it contains "atualizacao" or "atualizado" |
| PageChecks.FindDate | backend/scraper.py:1532 | the date found is the leftmost `dd/dd/dddd` at or after the index; none is found iff there is none |
| PageChecks.SpaceRun | backend/scraper.py:1532 | the run covers whitespace only and stops at a non-space or at the end |
| PageChecks.FindStamp | backend/scraper.py:1532 | a match has a date at its start and, when present, a time; there is no match iff the text holds no date |
| PageChecks.ParseStamp | backend/scraper.py:1535-1544 | a stamp `strptime` accepts is a valid calendar date and time of day |
| PageChecks.StampVerdict | backend/scraper.py:1532-1544 | a recent verdict needs a date in the text |
| PageChecks.FirstMentionShift | backend/scraper.py:1529-1531 | past a node that announces nothing, the first announcing node of the rest is the first of the whole list |
| PageChecks.FirstMentionUnshift | backend/scraper.py:1529-1531 | when the first node announces nothing, the first announcing node of the list is one past the first of the rest |
| PageChecks.Atualidade | backend/scraper.py:1527-1545 | the verdict is true iff some node is the first to announce an update and its stamp parses and is at most thirty days old; no such node means false |
| PageChecks.FirstMention | backend/scraper.py:1529-1531 | text node k is the first whose normalized text holds one of the update phrases |
| PageChecks.FutureStampIsRecent | backend/scraper.py:1542 | a stamp at or after the current moment counts as recent |
| PageChecks.CheckAtualidade | backend/scraper.py:1527-1545 | the loop over the text nodes, returning at the first announcing one, computes `Atualidade` |
| PageChecks.FirstYearSelector | backend/scraper.py:1551 | the selector found has a name containing "ano" or "exercicio", case aside, and every selector before it on the page does not; none is found iff no selector matches |
| PageChecks.OptionYears | backend/scraper.py:1553 | a year is offered iff some option has a value that is a non-empty run of digits denoting it |
| PageChecks.TextYears | backend/scraper.py:1557-1558 | a year is read from the text iff some `20dd` token not flanked by word characters spells it; every such year lies in 2000-2099 |
| PageChecks.CheckSerieHistorica | backend/scraper.py:1547-1559 | without a year selector, a reference year whose three predecessors leave 2000-2099 always fails; `SerieHistoricaOptionsIff` and `SerieHistoricaTextIff` give the verdict in each branch |
| PageChecks.SerieHistoricaOptionsIff | backend/scraper.py:1551-1554 | with a select named for the year or exercise, the check passes iff the first such select has an all-digit option value for each of the three years before the reference year |
| PageChecks.SerieHistoricaTextIff | backend/scraper.py:1556-1559 | without such a select, the check passes iff the page text holds a stand-alone `20dd` token for each of the three years before the reference year |
| PageChecks.SerieHistoricaMissingOption | backend/scraper.py:1552-1554 | a year selector lacking one of the three previous years fails, whatever the text says |
| PageChecks.YearSelector | backend/scraper.py:1551 | a select is a year selector when it has a `name` that contains "ano" or "exercicio" in any case |
| PageChecks.OptionOffers | backend/scraper.py:1553 | an option offers a year when its `value` is a non-empty run of digits spelling it |
| PageChecks.TextMentions | backend/scraper.py:1557-1558 | the text mentions a year when a stand-alone `20dd` token spells it |
| PageChecks.SerieHistoricaFromOptions | backend/scraper.py:1552-1554 | a year selector offering the three previous years in decimal passes |
| PageChecks.SerieHistoricaSelectorDecides | backend/scraper.py:1552-1554 | once a year selector exists the page text does not matter |
| PageChecks.AnchorTextDownload | backend/scraper.py:1570-1573 | some link's normalized text holds a download word |
| PageChecks.ButtonTextDownload | backend/scraper.py:1570-1573 | some button's normalized text holds a download word |
| PageChecks.EndsWithFormatIsDownload | backend/scraper.py:1563-1567 | a link whose lower-cased address ends in one of the nine extensions makes the check pass |
| PageChecks.ScanHrefs | backend/scraper.py:1564-1567 | the loop over the links answers whether some lower-cased href contains an extension |
| PageChecks.ScanTexts | backend/scraper.py:1570-1573 | the loop over links and buttons answers whether some normalized text holds a download word |
| PageChecks.CheckGravacaoRelatorios | backend/scraper.py:1561-1575 | the two loops compute `GravacaoRelatorios`: an extension in an href, else a download word |
| PageChecks.GravacaoRelatorios | backend/scraper.py:1561-1575 | `check_gravacao_relatorios`: a link whose lower-cased href contains one of the nine file extensions, or an anchor or button whose normalized text holds a download word; `EndsWithFormatIsDownload` and the `*TextDownload` rows state it |
| PageChecks.DownloadHref | backend/scraper.py:1564-1566 | an href offers a download when, lower-cased, it contains one of the extensions anywhere (not only at its end) |
| PageChecks.CheckFiltroPesquisa | backend/scraper.py:1577-1588 | any select passes; a pass needs some input, select, link or button; the `Filtro*` lemmas give each sign that passes and the converse |
| PageChecks.SearchInput | backend/scraper.py:1579-1583 | an input signals a search when its `type` is exactly "search" or its placeholder or `aria-label` mentions pesquisa, search, filtro or busca in any case |
| PageChecks.FiltroSearchType | backend/scraper.py:1580 | an input of type `search` passes |
| PageChecks.FiltroPlaceholder | backend/scraper.py:1581 | an input whose placeholder mentions searching or filtering passes |
| PageChecks.FiltroAriaLabel | backend/scraper.py:1582 | an input whose `aria-label` mentions searching or filtering passes |
| PageChecks.FiltroAnchorOwnString | backend/scraper.py:1586 | a link whose own string mentions filtrar, pesquisar or buscar passes |
| PageChecks.FiltroButtonOwnString | backend/scraper.py:1586 | a button whose own string mentions filtrar, pesquisar or buscar passes |
| PageChecks.FiltroNothingFails | backend/scraper.py:1577-1588 | with no select, no search input, and no link or button whose own string asks to filter, the check fails |
| PageChecks.FiltroBuscaPlaceholder | backend/scraper.py:1581 | the placeholder "Busca" is recognised, case aside |
| PageChecks.FilterButtonNeedsOwnString | backend/scraper.py:1586 | without inputs and selects, links and buttons without a string of their own do not pass |
| KnownUrls.FirstMatch | backend/known_urls.py:56-63 | the entry found matches the key and no earlier entry does; with none found, no entry matches |
| KnownUrls.Get | backend/known_urls.py:58 | `urls.get(tipo)` is present iff the type is a key, and then is that key's URL |
| KnownUrls.RegistryLookup | backend/known_urls.py:56-63 | the registry gives no answer iff no entry matches the key either exactly or partially |
| KnownUrls.GetKnownUrlIn | backend/known_urls.py:40-75 | without a registry match, any URL returned comes from the spreadsheet: the typed lookup, or the câmara fallback |
| KnownUrls.Key | backend/known_urls.py:52 | the lookup key: the name lower-cased and stripped, accents kept |
| KnownUrls.CamaraFallback | backend/known_urls.py:66-72 | without a registry match or a truthy spreadsheet URL, a name mentioning câmara or camara gets the spreadsheet's council-site URL |
| KnownUrls.GetKnownUrl | backend/known_urls.py:40-75 | `get_known_url` over the fixed registry; `ManausOfficialSite` computes one answer |
| KnownUrls.ExactBeforePartial | backend/known_urls.py:55-63 | the first exact match answers, even when an earlier entry matches partially |
| KnownUrls.FirstPartialAnswers | backend/known_urls.py:60-63 | without any exact match, the first entry that matches partially answers |
| KnownUrls.RegistryIgnoresSheet | backend/known_urls.py:54-68 | once an entry matches, the result does not depend on the spreadsheet, even when the entry lacks the type |
| KnownUrls.SheetAnswers | backend/known_urls.py:65-68 | without a registry match, a truthy spreadsheet URL is the answer |
| KnownUrls.NothingFound | backend/known_urls.py:65-75 | no registry match, no spreadsheet URL and no "câmara"/"camara" in the key give `None` |
| KnownUrls.ManausKey | backend/known_urls.py:52 | the lookup key of "Prefeitura de Manaus" is "prefeitura de manaus" |
| KnownUrls.ManausLower | backend/known_urls.py:52 | lower-casing "Prefeitura de Manaus" only lowers its capitals |
| KnownUrls.EarlierNamesDiffer | backend/known_urls.py:5-38 | no entry before Manaus's has the lower-cased name "prefeitura de manaus" |
| KnownUrls.ManausOfficialSite | backend/known_urls.py:5-63 | ("Prefeitura de Manaus", "site_oficial") resolves to https://www.manaus.am.gov.br/ from the registry |
| UgConfig.GetUgLink | backend/ug_config.py:3-31 | a link is returned iff the lower-cased acronym and the type are both keys, and it is the table's entry for them |
| UgConfig.OnlyKnownUnits | backend/ug_config.py:15-31 | an acronym other than tce or sefaz, in any letter case, has no link |
| UgConfig.SefazPortal | backend/ug_config.py:20-29 | ("SEFAZ", "portal_transparencia") gives the SEFAZ transparency system URL |
| AmazonasPortals.NormalizeCell | backend/amazonas_portals.py:11-15 | a missing cell normalizes to ""; every character of the result is transliterated and none is an upper-case ASCII letter |
| AmazonasPortals.NormalizeCellIdempotent | backend/amazonas_portals.py:11-15 | normalizing an already normalized name changes nothing |
| AmazonasPortals.FirstPrefix | backend/amazonas_portals.py:75-78 | the index found is the first of the four institutional prefixes the term starts with; no earlier prefix matches, and none matches when nothing is found |
| AmazonasPortals.SearchTerm | backend/amazonas_portals.py:74-78 | the search term is a suffix of the normalized name |
| AmazonasPortals.SearchTermStripsFirstPrefix | backend/amazonas_portals.py:75-78 | exactly the first matching prefix, in list order, is cut off (the loop breaks after one) |
| AmazonasPortals.SearchTermWithoutPrefix | backend/amazonas_portals.py:74-78 | a name with none of the prefixes is searched for unchanged |
| AmazonasPortals.Column | backend/amazonas_portals.py:84-90 | `col_map.get(tipo)` is defined for exactly the three URL types and names the column of the same name |
| AmazonasPortals.WithHttps | backend/amazonas_portals.py:99-100 | the result has an `http://` or `https://` scheme and ends with the input; a URL that has a scheme is kept as it is |
| AmazonasPortals.Unwrap | backend/amazonas_portals.py:115-116 | a value wrapped in one pair of parentheses loses exactly those two characters; any other value is unchanged |
| AmazonasPortals.RowPick | backend/amazonas_portals.py:90-119 | a URL a matching row yields always has a scheme; the row aborts the lookup only through a placeholder in the typed column |
| AmazonasPortals.GetUrlSpec | backend/amazonas_portals.py:67-68 | no data, or an empty table, gives `None` |
| AmazonasPortals.Scan | backend/amazonas_portals.py:80-155 | one pass over the rows: the first name-matching row whose columns decide, with a URL or with an abort on a "(a ser determinado)" placeholder, gives the pass's answer; other rows are skipped |
| AmazonasPortals.ScanHasScheme | backend/amazonas_portals.py:81-155 | a URL decided by either row pass has a scheme |
| AmazonasPortals.GetUrlHasScheme | backend/amazonas_portals.py:56-158 | every URL `get_url` returns starts with `http://` or `https://` |
| AmazonasPortals.ScanFirstDecisive | backend/amazonas_portals.py:81-119 | a pass returns what the first matching row that decides something yields; matching rows with nothing usable are passed over |
| AmazonasPortals.ScanSkipHead | backend/amazonas_portals.py:81-119 | a first row that does not match, or yields nothing, leaves the pass to the rows after it |
| AmazonasPortals.ScanNothing | backend/amazonas_portals.py:81-119 | a pass in which no matching row yields anything falls through |
| AmazonasPortals.ExactBeforePartial | backend/amazonas_portals.py:80-123 | an exact-name row that yields a URL wins over any row that matches only partially, whatever their order |
| AmazonasPortals.PlaceholderAborts | backend/amazonas_portals.py:94-97 | "(a ser determinado)" in the typed column of the first decisive exact row makes the whole lookup `None`, without the partial pass |
| AmazonasPortals.PortalUnwrapped | backend/amazonas_portals.py:111-119 | a portal cell "(u)" yields `u`, with `https://` added when it has no scheme |
| AmazonasPortals.Municipalities | backend/amazonas_portals.py:166-171 | every name kept is non-blank and is not the header "Nome_Município"; there are no more names than rows |
| AmazonasPortals.MunicipalitiesExact | backend/amazonas_portals.py:167-169 | a string is listed iff some row holds it as a string name that is non-blank and not the header |
| AmazonasPortals.MunicipalitiesStep | backend/amazonas_portals.py:167-169 | the names from row i on are row i's name when it is kept, followed by the names after it |
| AmazonasPortals.Portals.constructor | backend/amazonas_portals.py:7-9 | the instance holds the table `load_data` produced (given as a parameter) |
| AmazonasPortals.Portals.StripPrefix | backend/amazonas_portals.py:74-78 | the prefix loop computes `SearchTerm` of the normalized name |
| AmazonasPortals.Portals.GetUrl | backend/amazonas_portals.py:56-158 | the two row loops compute `GetUrlSpec`; a URL returned has a scheme |
| AmazonasPortals.Portals.GetAllMunicipalities | backend/amazonas_portals.py:160-171 | no table gives []; otherwise the loop collects `Municipalities` of the rows, in order |
| AmazonasPortals.ScanRows | backend/amazonas_portals.py:81-119 | the loop over the rows, leaving on the first decisive row, computes `Scan` |
| App.FirstSelected | backend/app.py:59-74 | the position found is a row of this UG (any case, trimmed) and criterion, and no earlier row is one |
| App.ObterLinkDaPlanilha | backend/app.py:54-81 | nothing without a sheet; a link returned is non-empty and already trimmed |
| App.SheetFirstRowDecides | backend/app.py:63-78 | the first row for the UG and criterion decides: its trimmed link, or nothing when the link is NaN or blank |
| App.SheetUgCaseInsensitive | backend/app.py:59-65 | UG names equal after trimming and lower-casing get the same link |
| App.FirstSelectedSame | backend/app.py:59-65 | UG names equal after trimming and lower-casing select the same first row |
| App.ItensAplicaveis | backend/app.py:105-109 | only criteria "1.1" and "2.1" have verification items, and none of them is "filtro_pesquisa" |
| App.AvaliarCriterioItems | backend/app.py:91-146 | with both required fields, exactly the applicable items get a verdict, each "Não Atendido" when the sheet has no link |
| App.AvaliarCriterio | backend/app.py:91-146 | `avaliar_criterio_endpoint` as a value: 400 without a UG or description, else a verdict per applicable item from the sheet's link; `AvaliarCriterioItems` states its shape |
| App.LinkedVerdict | backend/app.py:119-133 | with a consulted link, availability is the link's availability for criterion 1.1 and "Atendido (verificação de conteúdo pendente)" otherwise; updates and filters are "Não Atendido (verificação pendente)", series and report export "Atendido (verificação pendente)" |
| App.AvaliarCriterioEndpoint | backend/app.py:91-146 | the endpoint computes `AvaliarCriterio`: a 400 reply without the UG or the description, else the verdict map and evidence text |
| App.UnmetVerdicts | backend/app.py:135-141 | without a link every applicable item is "Não Atendido", the second write for criterion 1.1 included |
| App.CheckItems | backend/app.py:115-133 | the item checks give exactly the applicable items their linked verdict |
| App.VerdictMap | backend/app.py:115-133 | a map keyed by the applicable items, each holding its linked verdict, is the verdict map |
| App.MarkUnmet | backend/app.py:137-138 | the loop marks every item "Não Atendido" and nothing else |
| App.FirstAvailable | backend/app.py:210-217 | the address found answers 200 and every earlier one does not; nothing found iff none answers |
| App.CachedFirst | backend/app.py:221-224 | a cached answer is the non-empty first entry of the query's cached results |
| App.Tiers | backend/app.py:219-230 | the URL the ladder ends with is the one already found, the first cached result, or one of the search results |
| App.LaterTiersSkipped | backend/app.py:219-230 | once a URL is found or cached, the engines are not consulted and the cache is unchanged |
| App.SiteDirectFirst | backend/app.py:203-217 | a directly reachable address is the official site, whatever the cache and the engines hold, and the cache is unchanged |
| App.SiteOficial | backend/app.py:200-230 | the official-site ladder: the first available direct address, else the cache, else the search; `SiteDirectFirst` and `LaterTiersSkipped` state its order |
| App.PortalSiteLinkFirst | backend/app.py:254-258 | a transparency link on the official site is the portal: no address is probed and the cache is unchanged |
| App.Portal | backend/app.py:252-288 | the portal ladder: the first transparency link on the site, else a direct address, else the cache, else the search; `PortalSiteLinkFirst` states its order |
| App.Target | backend/app.py:316-322 | "sítio oficial" questions use the site, "portal da transparência" questions the portal, others the site, and none without a site or a matching portal |
| App.MakeRecord | backend/app.py:336-367 | with an address the record is available and current, carries the evidence link iff it is met, and is met iff the item check passes; without one it is unmet with an observation |
| App.Ask | backend/app.py:315-367 | one question: the site or portal the question targets, else its own cache entry or search, then its record; `Backend.AskQuestion` computes it |
| App.QuestionProgressBounds | backend/app.py:311 | question progress grows with the question index and stays within [20, 100) |
| App.Answers | backend/app.py:304-370 | one record per question asked, in catalogue order, each for its own question |
| App.AnswersNext | backend/app.py:304-370 | the next question is asked against the cache the earlier questions left |
| App.QuestionMessages | backend/app.py:308-370 | each question contributes two messages |
| App.QuestionsProgress | backend/app.py:308-313 | the question status lines never go down and stay between 20 and the last question's progress |
| App.OpeningProgress | backend/app.py:193-301 | the four opening lines report 5, 10, 15 and 20, in that order |
| App.ClosingProgress | backend/app.py:376-393 | the closing line reports 100 |
| App.StreamProgress | backend/app.py:183-394 | the whole stream's progress never decreases and stays within 5 and 100 |
| App.QuestionProgress | backend/app.py:311 | question i of n is announced at 20 + (i/n)·80 per cent; `QuestionProgressBounds` states it |
| App.RunProgress | backend/app.py:183-394 | every evaluation run reports progress that never decreases and stays within 5 and 100 |
| App.QuestionMessagesAt | backend/app.py:308-370 | question i's record follows right after its status line |
| App.QuestionMessagesIncomplete | backend/app.py:303-373 | the question messages never hold the completion event |
| App.StreamAt | backend/app.py:183-394 | question i's status line sits at position 4 + 2i and its record right after |
| App.Stream | backend/app.py:183-394 | the opening messages, the messages of each question, then completion; properties in `StreamProgress`, `StreamAt`, `StreamRecords` and `StreamCompletesOnce` |
| App.Run | backend/app.py:183-394 | `executar_scraping` as a value: site ladder, portal ladder, then the questions, threading the cache; properties in `RunProgress`, `RunRecords` and `RunSteps` |
| App.StreamRecords | backend/app.py:183-394 | after the four opening lines come a status line and a record for each question in order |
| App.StreamCompletesOnce | backend/app.py:390-393 | the stream ends with the completion event, which appears nowhere else |
| App.RunRecords | backend/app.py:183-394 | a run yields one record per question, for that question, in catalogue order, then completes once |
| App.RunSteps | backend/app.py:183-394 | a run is the two ladders, then the questions asked against the cache the ladders leave |
| App.Backend.constructor | backend/app.py:22-24 | the back end starts idle with an empty queue |
| App.Backend.Start | backend/app.py:152-181 | refused while busy or without an organ name, leaving the state as it was; otherwise the queue is drained, the flag raised and the question count returned |
| App.Backend.Put | backend/app.py:193-197 | a message is appended to the queue |
| App.Backend.ResolveTiers | backend/app.py:219-230 | the tier-by-tier code computes `Tiers`, cache included |
| App.Backend.FindSite | backend/app.py:200-230 | the official-site code computes `SiteOficial`, cache included |
| App.Backend.FindPortal | backend/app.py:252-288 | the portal code computes `Portal`, cache included |
| App.Backend.AskQuestion | backend/app.py:315-367 | one question's code computes `Ask`, cache included |
| App.Backend.ExecutarScraping | backend/app.py:183-394 | the worker appends exactly the messages of `Run` to the queue, leaves the cache `Run` describes, and clears the busy flag |
| App.Backend.Finish | backend/app.py:376-394 | the closing status and the completion event are queued and the flag cleared |
| App.Backend.Ladders | backend/app.py:192-301 | the two ladders queue the four opening lines and find the site and the portal |
| App.Backend.SiteStep | backend/app.py:192-243 | the official-site ladder sits between its two status lines |
| App.Backend.PortalStep | backend/app.py:245-301 | the portal ladder sits between its two status lines |
| App.Backend.AskAll | backend/app.py:303-373 | the question loop queues `QuestionMessages` of `Answers` and leaves `Answers`'s cache |
| App.Backend.AskNext | backend/app.py:304-370 | question i queues its status line then its record, extending `Answers` by one |
| App.ProbeAvailable | backend/app.py:210-217 | the direct-address loop computes `FirstAvailable` |
| LinkFinder.VerificarLinkHeadFirst | backend/link_finder.py:286-304 | when HEAD answers, its status alone decides (below 400) and the GET request does not matter; when both raise, the link is dead |
| LinkFinder.VerificarLink | backend/link_finder.py:286-304 | `verificar_link`: HEAD below 400, and only when HEAD raises, GET below 400; `VerificarLinkHeadFirst` states the GET is irrelevant when HEAD answers |
| LinkFinder.LikeFold | backend/link_finder.py:152 | `LIKE` folding keeps the length of the name |
| LinkFinder.Like | backend/link_finder.py:152 | `nome LIKE '%pattern%'` under SQLite's ASCII case folding; its properties are `LikeSelf`, `LikeLiteral` and `UnderscoreIsWildcard` |
| LinkFinder.LikeMatch | backend/link_finder.py:152 | SQL `LIKE` without an escape: `%` any run of characters, `_` any one character, others themselves; its properties are `MatchAny`, `MatchLiteralPrefix`, `MatchLiteralInside` and `MatchSelf` |
| LinkFinder.MatchAny | backend/link_finder.py:152 | a lone `%` matches every string |
| LinkFinder.MatchLiteralPrefix | backend/link_finder.py:152 | a wildcard-free pattern followed by `%` matches a string iff the pattern starts it |
| LinkFinder.MatchLiteralInside | backend/link_finder.py:152 | `LIKE '%q%'` with a wildcard-free `q` holds iff `q` occurs in the string |
| LinkFinder.LikeLiteral | backend/link_finder.py:152 | for a name free of `%` and `_`, the query is a case-insensitive substring test, in both directions |
| LinkFinder.MatchSelf | backend/link_finder.py:152 | a pattern followed by `%` matches its own text, wildcards included |
| LinkFinder.UnderscoreIsWildcard | backend/link_finder.py:152 | `_` in the name is a wildcard: "a_c" matches "abc", which does not contain it literally |
| LinkFinder.FirstTipo | backend/link_finder.py:146 | the type found has the name asked for and no earlier type has it; none is found iff no type has it |
| LinkFinder.FirstOrgao | backend/link_finder.py:152 | the body found matches `LIKE '%nome%'` and no body before it matches; none is found iff no body matches |
| LinkFinder.FirstLink | backend/link_finder.py:157-161 | the link found is the first of that body and type (active ones only, when asked) |
| LinkFinder.BuscarNoBanco | backend/link_finder.py:132-167 | an unknown type or a name no body contains gives `None`; a URL returned is that of an active link |
| LinkFinder.SalvarUpsert | backend/link_finder.py:377-428 | saving replaces the first link of that body and type by an active one with the new URL, or appends exactly one active link; no other link changes |
| LinkFinder.Salvar | backend/link_finder.py:377-428 | the body and link type are created when missing, then the first link of that body and type, active or not, is updated and made active, or one active link is appended; `SalvarUpsert` and `SalvarThenBuscar` state its properties |
| LinkFinder.LikeSelf | backend/link_finder.py:152 | a name matches `LIKE '%name%'` on itself, whatever its letter case and whatever `%` or `_` it holds |
| LinkFinder.SalvarThenBuscar | backend/link_finder.py:132-167 | after saving a link, looking it up by the same name and type returns its URL |
| LinkFinder.Filter | backend/link_finder.py:215-230 | an address is kept iff it is the href of some result that passes the engine-domain and search-kind filter |
| LinkFinder.PortalPattern | backend/link_finder.py:40-46 | one of the five transparency-portal patterns occurs in the URL, case aside |
| LinkFinder.Accepted | backend/link_finder.py:217-228 | a result is kept when it has an href outside the engine's domain that fits a portal pattern, or for other searches contains .gov.br or .leg.br |
| LinkFinder.EngineUrls | backend/link_finder.py:213-230 | one engine contributes its first five results, filtered |
| LinkFinder.FilterConcat | backend/link_finder.py:215-230 | filtering keeps page order: the addresses kept from two lists in turn are those kept from the first, then those kept from the second |
| LinkFinder.FilterOne | backend/link_finder.py:215-230 | a single result gives its href when it passes the filter and nothing otherwise |
| LinkFinder.Dedup | backend/link_finder.py:279 | `list(dict.fromkeys(urls))` keeps exactly the addresses of the list, no more than there were |
| LinkFinder.DedupOrder | backend/link_finder.py:279 | each address kept is at the position of its first occurrence, and these positions strictly increase: the first occurrences, in order |
| LinkFinder.OccurrencesExtend | backend/link_finder.py:279 | first occurrences in a list stay first occurrences when an element is appended |
| LinkFinder.OccurrencesAppend | backend/link_finder.py:279 | appending an element new to the list adds it as one more first occurrence, at the end |
| LinkFinder.DedupDistinct | backend/link_finder.py:279 | the deduplicated list has no repeats, and a list without repeats is left as it is |
| LinkFinder.SearchWeb | backend/link_finder.py:169-284 | the search returns at most five addresses, without repeats, and none when DuckDuckGo raises |
| LinkFinder.SearchWebOrder | backend/link_finder.py:213-279 | when DuckDuckGo keeps an address, the answer is its kept addresses' first occurrences in order; otherwise, when Bing answers, those of Bing's kept addresses; when Bing raises too, nothing |
| LinkFinder.BingOnlyAsFallback | backend/link_finder.py:232-233 | Bing is consulted only when DuckDuckGo kept nothing (and did not fail) |
| LinkFinder.SearchWebSound | backend/link_finder.py:213-276 | every address found was among the first five results of an engine that answered, and passed its filter |
| LinkFinder.Tagged | backend/link_finder.py:349-369 | one alternative is recorded per web candidate |
| LinkFinder.WebPass | backend/link_finder.py:349-369 | the loop over the web candidates: the first live one becomes the main link, every other one an alternative tagged live or dead, in order; properties in the `WebPass*` lemmas |
| LinkFinder.FirstLive | backend/link_finder.py:349-355 | the candidate chosen answers and no earlier one does; none is chosen iff none answers |
| LinkFinder.WebPassAfterFound | backend/link_finder.py:356-369 | once a main link is set, every further candidate becomes an alternative, in order |
| LinkFinder.WebPassNoneLive | backend/link_finder.py:363-369 | with no main link and no candidate answering, every candidate is an inactive alternative |
| LinkFinder.TaggedHead | backend/link_finder.py:349-369 | tagging the first k candidates tags the first one, then the next k - 1 |
| LinkFinder.WebPassSkip | backend/link_finder.py:363-369 | a first candidate that does not answer becomes an inactive alternative and the pass goes on |
| LinkFinder.WebPassLiveHead | backend/link_finder.py:350-355 | with no main link, a first candidate that answers becomes it, from the web search, and the rest are alternatives |
| LinkFinder.WebPassLive | backend/link_finder.py:349-369 | with no main link, the first candidate that answers becomes it; all others are alternatives in encounter order |
| LinkFinder.WebPassFirstLive | backend/link_finder.py:349-369 | the web pass either records every candidate as an alternative (none answers) or makes the first live one the main link and every other an alternative |
| LinkFinder.DatabaseLinkFirst | backend/link_finder.py:327-335 | a database link that answers is returned at once with source "banco_dados", no alternatives and nothing saved, whatever the web would find |
| LinkFinder.DeadDatabaseLink | backend/link_finder.py:336-342 | a database link that does not answer is the first alternative, marked "Link inativo", and never the main link |
| LinkFinder.WebMainLink | backend/link_finder.py:344-375 | without a working database link, the main link is the first web candidate that answers, from "busca_web"; with none, the status stays "Não encontrado" and nothing is saved |
| LinkFinder.BuscarLinkResult | backend/link_finder.py:306-375 | `buscar_link` as a value: the database link when it answers, otherwise the web pass, after a dead database link recorded as an alternative; properties in `DatabaseLinkFirst`, `DeadDatabaseLink` and `WebMainLink` |
| LinkFinder.Finder.constructor | backend/link_finder.py:21-55 | the finder starts on the given database contents |
| LinkFinder.Finder.SalvarLinkNoBanco | backend/link_finder.py:377-428 | the database afterwards is `Salvar` of the database before |
| LinkFinder.Finder.BuscarNoGoogle | backend/link_finder.py:169-284 | the result loops compute `SearchWeb` |
| LinkFinder.Finder.BuscarLink | backend/link_finder.py:306-375 | the result is `BuscarLinkResult` of the database before; the database changes, by `Salvar`, exactly when the main link came from the web |
| LinkFinder.CheckCandidates | backend/link_finder.py:349-369 | the loop over the web candidates computes `WebPass` |
| LinkFinder.KeepResults | backend/link_finder.py:215-230 | the loop over the first five results computes the engine's kept addresses |
| LinkFinder.RemoveDuplicates | backend/link_finder.py:279 | the loop keeping first occurrences computes `Dedup` |
| VerificadorSiteOficial.AddHttp | backend/verificador_site_oficial.py:51-53 | the URL fetched has a scheme and ends with the URL given; one that had a scheme is unchanged |
| VerificadorSiteOficial.FoundKeywords | backend/verificador_site_oficial.py:92-96 | a keyword is kept iff it is in the list and occurs in the lower-cased content |
| VerificadorSiteOficial.Elements | backend/verificador_site_oficial.py:101-110 | at most the five listed elements are found |
| VerificadorSiteOficial.EndsWithDomain | backend/verificador_site_oficial.py:68 | the URL, lower-cased, ends with the suffix, or with the suffix and a final newline |
| VerificadorSiteOficial.OfficialDomain | backend/verificador_site_oficial.py:13-71 | the lower-cased URL ends, or ends before a final newline, with one of the six official suffixes .gov.br, .leg.br, .jus.br, .mp.br, .edu.br, .org.br |
| VerificadorSiteOficial.ContentConvinces | backend/verificador_site_oficial.py:115 | the name in the title or at least two keywords, and at least three elements |
| VerificadorSiteOficial.Evidence | backend/verificador_site_oficial.py:65-112 | the evidence list: the domain, then the title, keyword and element findings that succeeded, in that order |
| VerificadorSiteOficial.EmptyUrl | backend/verificador_site_oficial.py:46-49 | an empty URL is refused with "URL não fornecida." and no evidence, without any request |
| VerificadorSiteOficial.FetchFailureRefuses | backend/verificador_site_oficial.py:55-63 | a page that raises or answers other than 200 is refused with no evidence |
| VerificadorSiteOficial.TrailingSlashRefused | backend/verificador_site_oficial.py:65-75 | a URL ending in "/" is always refused, because the endings are matched at the very end of the URL |
| VerificadorSiteOficial.NotOfficialRefused | backend/verificador_site_oficial.py:73-75 | without an official domain the site is refused with no evidence, whatever its content |
| VerificadorSiteOficial.TrailingSlashNotOfficial | backend/verificador_site_oficial.py:13-20 | a URL ending in "/" matches none of the domain patterns |
| VerificadorSiteOficial.SuffixesEndInLetters | backend/verificador_site_oficial.py:13-20 | every official ending closes on a character other than "/" |
| VerificadorSiteOficial.NoDomainEndsInSlash | backend/verificador_site_oficial.py:67-68 | a URL whose last character is "/" ends in none of the endings |
| VerificadorSiteOficial.AtendeIff | backend/verificador_site_oficial.py:114-119 | "Atende" iff the URL is non-empty, the page answers 200 from an official domain, the name is in the title or two keywords occur, and three elements are present |
| VerificadorSiteOficial.Verificacao | backend/verificador_site_oficial.py:29-121 | `verificar_site_oficial` as a value: refusal of an empty URL, of a failed fetch, of a non-official domain, else the page examined; properties in `EmptyUrl`, `FetchFailureRefuses`, `NotOfficialRefused` and `AtendeIff` |
| VerificadorSiteOficial.Examined | backend/verificador_site_oficial.py:77-121 | the verdict on a page from an official domain: met iff the name is in the title or two keywords occur, and three official elements are present; the evidence list in `EvidenceSound` |
| VerificadorSiteOficial.EvidenceItems | backend/verificador_site_oficial.py:70-112 | every piece of evidence is the domain line, the title line, the keyword line or the element line of a check that succeeded |
| VerificadorSiteOficial.EvidenceSound | backend/verificador_site_oficial.py:46-112 | evidence exists only once the site answered from an official domain, and each piece records a check that succeeded on that page |
| VerificadorSiteOficial.VerificarSiteOficial | backend/verificador_site_oficial.py:29-121 | each check in turn computes `Verificacao` |
| VerificadorSiteOficial.ExaminePage | backend/verificador_site_oficial.py:77-121 | the content checks on an official page compute `Examined` |
| VerificadorSiteOficial.GatherEvidence | backend/verificador_site_oficial.py:80-112 | the title, keyword and element checks and the evidence appended are those the specification functions give |
| VerificadorSiteOficial.CheckDomain | backend/verificador_site_oficial.py:66-71 | the loop over the endings, stopping at the first match, answers `OfficialDomain` |
| VerificadorSiteOficial.CollectKeywords | backend/verificador_site_oficial.py:93-96 | the keyword loop computes `FoundKeywords` |
| VerificadorNovo.PalavrasChave | backend/verificador_novo.py:77-104 | the keywords always hold the three default words |
| VerificadorNovo.SubsetCard | backend/verificador_novo.py:310-311 | the keywords found are no more than the keywords, so the share is at most 1 |
| VerificadorNovo.PortalWitness | backend/verificador_novo.py:81-100 | "portal" belongs to the transparency group only |
| VerificadorNovo.EstruturaWitness | backend/verificador_novo.py:81-100 | "organograma" belongs to the structure group only |
| VerificadorNovo.CompetenciasWitness | backend/verificador_novo.py:81-100 | "funções" belongs to the duties group only |
| VerificadorNovo.GestaoWitness | backend/verificador_novo.py:81-100 | "prefeito" belongs to the management group only |
| VerificadorNovo.ContatoWitness | backend/verificador_novo.py:81-100 | "contato" belongs to the contact group only |
| VerificadorNovo.LicitacoesWitness | backend/verificador_novo.py:81-100 | "edital" belongs to the procurement group only |
| VerificadorNovo.PortalKeywords | backend/verificador_novo.py:84-85 | the transparency words are among the keywords iff the lower-cased question holds both "portal" and "transparência" |
| VerificadorNovo.EstruturaKeywords | backend/verificador_novo.py:87-88 | the structure words are there iff the question holds both "estrutura" and "organizacional" |
| VerificadorNovo.CompetenciasKeywords | backend/verificador_novo.py:90-91 | the duty words are there iff the question holds "competências" or "atribuições" |
| VerificadorNovo.GestaoKeywords | backend/verificador_novo.py:93-94 | the management words are there iff the question holds "responsáveis" or "gestão" |
| VerificadorNovo.ContatoKeywords | backend/verificador_novo.py:96-97 | the contact words are there iff the question holds "endereços" or "telefones" |
| VerificadorNovo.LicitacoesKeywords | backend/verificador_novo.py:99-100 | the procurement words are there iff the question holds "licitações" |
| VerificadorNovo.Hits | backend/verificador_novo.py:305-307 | a keyword is counted iff it occurs, lower-cased, in the lower-cased page text |
| VerificadorNovo.BaseScore | backend/verificador_novo.py:309-313 | the base share lies in [0, 1]; it is 1 when every keyword occurs and 0 when none does |
| VerificadorNovo.Ratio | backend/verificador_novo.py:311 | a count out of a positive total lies in [0, 1], is 1 iff all are counted and 0 iff none is |
| VerificadorNovo.FactorSign | backend/verificador_novo.py:311 | a factor of a product with a positive factor has the product's sign |
| VerificadorNovo.Pontuacao | backend/verificador_novo.py:293-330 | the score lies in [0, 1]; it is 0 when the page cannot be read or, with some keyword, a `h1`-`h3` heading has no string (the heading test raises); otherwise it is at least the base share |
| VerificadorNovo.HeadingHit | backend/verificador_novo.py:323-324 | the heading bonus: some `h1`-`h3` heading with a string of its own contains a keyword, both lower-cased |
| VerificadorNovo.HeadingRaises | backend/verificador_novo.py:323-330 | the heading test raises `AttributeError` exactly when there is a keyword and some heading's string is `None` |
| VerificadorNovo.HeadingWithoutStringScoresZero | backend/verificador_novo.py:323-330 | one empty or mixed-content heading makes a page with keywords score 0, whatever it holds |
| VerificadorNovo.HeadingBonusNeedsString | backend/verificador_novo.py:323-324 | headings without a string of their own never earn the heading bonus |
| VerificadorNovo.AllKeywordsFullScore | backend/verificador_novo.py:309-326 | a page holding every keyword, whose headings all have a string, scores 1, whatever its structure (the bonuses are capped) |
| VerificadorNovo.BarePageScoresZero | backend/verificador_novo.py:309-326 | a page without keywords, tables, images or matching headings scores 0 |
| VerificadorNovo.MoreHitsScoreMore | backend/verificador_novo.py:309-326 | of two pages with the same structure, the one holding more of the keywords scores at least as much |
| VerificadorNovo.CountHits | backend/verificador_novo.py:302-307 | the keyword loop counts exactly the keywords found |
| VerificadorNovo.PontuarPaginaAtual | backend/verificador_novo.py:293-330 | the scorer computes `Pontuacao`, including the 0 when the heading test raises |
| VerificadorNovo.RelevanceIff | backend/verificador_novo.py:244-250 | a link is relevant iff its lower-cased text or href contains one of the keywords |
| VerificadorNovo.RelevantesSound | backend/verificador_novo.py:230-253 | every relevant link mentions a keyword and comes from an anchor with a real href on the base host or starting with "/" |
| VerificadorNovo.RelevantesComplete | backend/verificador_novo.py:230-253 | every such anchor that mentions a keyword gives a relevant link |
| VerificadorNovo.Relevantes | backend/verificador_novo.py:230-253 | the candidate links mentioning at least one keyword, in page order; `RelevantesSound` and `RelevantesComplete` state it |
| VerificadorNovo.Insert | backend/verificador_novo.py:256 | inserting keeps the list in decreasing relevance and adds exactly the one link |
| VerificadorNovo.SortDesc | backend/verificador_novo.py:256 | the sort yields decreasing relevance and a permutation of the links |
| VerificadorNovo.Top | backend/verificador_novo.py:255-259 | at most three links are explored, most relevant first |
| VerificadorNovo.TopAreRelevant | backend/verificador_novo.py:227-259 | every link explored is a relevant candidate of the base page |
| VerificadorNovo.SortedMembers | backend/verificador_novo.py:256 | every link of the sorted list was in the list before |
| VerificadorNovo.RelevantLinks | backend/verificador_novo.py:227-253 | the anchor loop, with the base host computed from the URL, collects `Relevantes` |
| VerificadorNovo.RelevantOn | backend/verificador_novo.py:230-253 | the anchor loop collects the relevant candidates in page order |
| VerificadorNovo.RelevantesCons | backend/verificador_novo.py:230-253 | the relevant links from anchor i on are anchor i's link, when relevant, then those after it |
| VerificadorNovo.Offer | backend/verificador_novo.py:209-211 | a page replaces the best only when it scores strictly more; the best score never drops and the visited set is untouched |
| VerificadorNovo.ExploreKeepsBest | backend/verificador_novo.py:259-277 | exploring never lowers the best score, moves the best URL only with a strictly higher score and then to an explored link, visits only explored links and ends at least as high as every link it newly scored |
| VerificadorNovo.ExploreLinks | backend/verificador_novo.py:259-277 | the link loop computes `Explore` |
| VerificadorNovo.Step | backend/verificador_novo.py:259-277 | one link explored: skipped when visited, unrecorded when the browser fails, else scored and offered as the best page |
| VerificadorNovo.Explore | backend/verificador_novo.py:259-277 | the links explored in order; `ExploreKeepsBest` and `ExploreBounded` state it |
| VerificadorNovo.AfterSearch | backend/verificador_novo.py:161-215 | the home page's score, then the search results' page when a search field exists, kept only when strictly better, its address marked visited |
| VerificadorNovo.ScoreHomeAndSearch | backend/verificador_novo.py:166-218 | scoring the home page and then the search results' page computes `AfterSearch` |
| VerificadorNovo.Explored | backend/verificador_novo.py:221-277 | links are explored only while the best score is below 0.5 |
| VerificadorNovo.DominioBase | backend/verificador_novo.py:240 | the base host: the first three `/`-separated parts of the URL, joined by `/` |
| VerificadorNovo.Candidate | backend/verificador_novo.py:232-242 | a link is scored when its href is non-empty, not `javascript:` nor "#", and starts with the base host or with "/" |
| VerificadorNovo.Verdict | backend/verificador_novo.py:279-287 | the item is met iff the best score is at least 0.3, and reports that score and URL |
| VerificadorNovo.Verificacao | backend/verificador_novo.py:154-291 | the item is met iff its score is at least 0.3; a failure to open the base URL answers "not met", score 0, at that URL |
| VerificadorNovo.ItemBest | backend/verificador_novo.py:161-287 | the answer's score is at least the home page's and at most 1, and its URL differs from the base only with a strictly higher score |
| VerificadorNovo.ExploreBounded | backend/verificador_novo.py:259-277 | scores stay within 0 and 1 while exploring |
| VerificadorNovo.NoExplorationWhenHalf | backend/verificador_novo.py:220-221 | once the home page and the search box reach 0.5, no link is explored |
| VerificadorNovo.VerificarItem | backend/verificador_novo.py:154-291 | the home page, the search box and the exploration compute `Verificacao` |
| VerificadorNovo.FirstAccepted | backend/verificador_novo.py:119-146 | the link taken is the first result accepted (not a cached copy; a `.gov.br` link for the site, a transparency link for the portal); none iff no result is accepted |
| VerificadorNovo.FirstAcceptedLink | backend/verificador_novo.py:120-127 | the result loop, stopping at the first accepted link, computes `FirstAccepted` |
| VerificadorNovo.Keep | backend/verificador_novo.py:124-144 | a search that finds nothing leaves the field's previous value |
| VerificadorNovo.UrlBase | backend/verificador_novo.py:350-360 | questions about the portal, transparency or procurement use the portal when known, else the site; all others use the site |
| VerificadorNovo.MapSeq | backend/verificador_novo.py:347-375 | one record per question |
| VerificadorNovo.MapSeqSnoc | backend/verificador_novo.py:347-375 | checking one more question appends its record |
| VerificadorNovo.Records | backend/verificador_novo.py:347-375 | there is one record per question |
| VerificadorNovo.RecordsShape | backend/verificador_novo.py:364-375 | each record carries its question's id, text and classification, and meets the question iff its score is at least 0.3 |
| VerificadorNovo.Record | backend/verificador_novo.py:364-375 | the record of one question: its id, text and class with the item's verdict, score, URL and observation; `RecordsShape` states it |
| VerificadorNovo.Avaliacao | backend/verificador_novo.py:340-380 | no official site gives no records; otherwise there is one per standard question |
| VerificadorNovo.CheckQuestions | backend/verificador_novo.py:347-378 | the question loop computes `Records` |
| VerificadorNovo.CheckQuestion | backend/verificador_novo.py:350-375 | one question's URL, check and record are those of `Checked` |
| VerificadorNovo.VerificadorTransparencia.constructor | backend/verificador_novo.py:14-18 | the evaluator starts with its driver and with neither URL known |
| VerificadorNovo.VerificadorTransparencia.BuscarSitesDoOrgao | backend/verificador_novo.py:106-148 | each field becomes the first accepted of the first five results of its query, or keeps its value; both are returned |
| VerificadorNovo.VerificadorTransparencia.AvaliarOrgao | backend/verificador_novo.py:332-380 | the sites are searched first, and the records are `Avaliacao` on the sites then known |
| GeradorRelatorios.Get | backend/gerador_relatorios.py:104-115 | `resultado.get(key, default)` is the stored value when the key is there, else the default |
| GeradorRelatorios.SimNao | backend/gerador_relatorios.py:108-109 | the cell says "Sim" iff the value is truthy, and otherwise "Não" |
| GeradorRelatorios.Pad | backend/gerador_relatorios.py:39 | a zero-padded field is all digits and has exactly the width asked for when the number fits |
| GeradorRelatorios.Timestamp | backend/gerador_relatorios.py:39 | `strftime("%Y%m%d_%H%M%S")`; its shape is `TimestampShape` |
| GeradorRelatorios.NomeArquivo | backend/gerador_relatorios.py:40 | `avaliacao_<orgao with spaces as underscores>_<timestamp>.<formato>`; its shape is `NomeShape` |
| GeradorRelatorios.Caminho | backend/gerador_relatorios.py:28-41 | the file name joined to the output directory; its shape is `CaminhoShape` |
| GeradorRelatorios.DigitsBound | backend/gerador_relatorios.py:39 | a number below 10^k has at most k digits (one digit when k is 0) |
| GeradorRelatorios.TimestampShape | backend/gerador_relatorios.py:39 | for a four-digit year, the stamp is eight digits, an underscore and six digits |
| GeradorRelatorios.ReplaceCharRemoves | backend/gerador_relatorios.py:40 | replacing a character by a string without it leaves none of it |
| GeradorRelatorios.NomeShape | backend/gerador_relatorios.py:40 | a file name starts with "avaliacao_", ends with "." and the format, is relative, and keeps no blank of the body's name |
| GeradorRelatorios.PathJoinShape | backend/gerador_relatorios.py:41 | joining a directory with a relative name puts the name right after the directory or after one "/" |
| GeradorRelatorios.CaminhoShape | backend/gerador_relatorios.py:28-41 | the path lies in the output directory and ends with a name that starts with "avaliacao_" and ends with the format's extension |
| GeradorRelatorios.Latin1 | backend/gerador_relatorios.py:180 | the filter keeps the length, and every character of its result is below 256 |
| GeradorRelatorios.Sanitizar | backend/gerador_relatorios.py:158-180 | the sanitised text holds only Latin-1 characters |
| GeradorRelatorios.Lookup | backend/gerador_relatorios.py:162-174 | a character has a replacement iff the table has an entry for it |
| GeradorRelatorios.ReplaceCharConcat | backend/gerador_relatorios.py:176-177 | `str.replace` of one character distributes over concatenation |
| GeradorRelatorios.ReplaceAllConcat | backend/gerador_relatorios.py:176-177 | the whole replacement table distributes over concatenation |
| GeradorRelatorios.ReplaceAllUntouched | backend/gerador_relatorios.py:176-177 | a text without any of the table's characters passes through the table unchanged |
| GeradorRelatorios.ReplaceCharAbsent | backend/gerador_relatorios.py:177 | replacing a character the text lacks changes nothing |
| GeradorRelatorios.TableIsAscii | backend/gerador_relatorios.py:162-174 | every key of the table lies beyond ASCII and every replacement within it |
| GeradorRelatorios.ReplaceAllOne | backend/gerador_relatorios.py:176-177 | the table applied to one character gives its entry's replacement, or the character itself |
| GeradorRelatorios.Latin1Ascii | backend/gerador_relatorios.py:180 | the Latin-1 filter leaves ASCII text alone |
| GeradorRelatorios.ReplaceAllChar | backend/gerador_relatorios.py:176-180 | the table then the filter, on one character, give that character's translation |
| GeradorRelatorios.LookupFound | backend/gerador_relatorios.py:162-174 | a replacement found is one of the table's entries |
| GeradorRelatorios.Latin1Concat | backend/gerador_relatorios.py:180 | the Latin-1 filter distributes over concatenation |
| GeradorRelatorios.SanitizarPerChar | backend/gerador_relatorios.py:158-180 | the sanitiser translates each character on its own: its table entry, else itself within Latin-1, else "?" |
| GeradorRelatorios.SanitizarKeepsLatin1 | backend/gerador_relatorios.py:158-180 | Latin-1 text with no character of the table is unchanged |
| GeradorRelatorios.SanitizedKeeps | backend/gerador_relatorios.py:158-180 | the per-character translation leaves such text unchanged |
| GeradorRelatorios.SanitizarReplacesWide | backend/gerador_relatorios.py:180 | a character beyond Latin-1 without a table entry becomes "?" |
| GeradorRelatorios.SanitizarDash | backend/gerador_relatorios.py:163 | the en dash becomes "-" |
| GeradorRelatorios.SanitizarSection | backend/gerador_relatorios.py:173 | the section sign becomes "paragrafo " |
| GeradorRelatorios.SanitizarTexto | backend/gerador_relatorios.py:158-180 | the replacement loop and the filter compute `Sanitizar` |
| GeradorRelatorios.RowsAgree | backend/gerador_relatorios.py:94-116 | every CSV row has the header's twelve columns, and the ODS sheet has the same columns in the same order, holding the same cells |
| GeradorRelatorios.YesNoColumns | backend/gerador_relatorios.py:108-109 | the "Atende" and "Disponibilidade" columns say "Sim" iff the value is there and truthy, and "Não" when it is missing |
| GeradorRelatorios.CsvTable | backend/gerador_relatorios.py:93-116 | the file is the header then one row per result, every row twelve columns wide |
| GeradorRelatorios.SalvarCsv | backend/gerador_relatorios.py:77-118 | the header and the row loop compute `CsvTable` |
| GeradorRelatorios.XmlOptionalFields | backend/gerador_relatorios.py:257-261 | an XML item has an observation and an evidence link exactly when the result holds truthy ones |
| GeradorRelatorios.XmlItem | backend/gerador_relatorios.py:248-261 | the children of an XML `Item`: four fields read with an empty default, the yes/no verdict, then the truthy observation and evidence link; properties in `XmlOptionalFields` and `XmlOkKeys` |
| GeradorRelatorios.XmlOk | backend/gerador_relatorios.py:251-265 | no child text is `True`; a `False` or empty text is written as an empty element, while `True` makes `tree.write` raise `TypeError` |
| GeradorRelatorios.XmlOkKeys | backend/gerador_relatorios.py:251-265 | the XML writer fails on a result iff one of the four defaulted fields, the observation or the link holds `True` |
| GeradorRelatorios.XmlFalseIsWritten | backend/gerador_relatorios.py:251-265 | a result whose id is `False` is still written as XML |
| GeradorRelatorios.TxtEntry | backend/gerador_relatorios.py:60-73 | the lines `salvar_txt` writes for one result; none when a required key is missing; shape in `TxtOptionalFields` |
| GeradorRelatorios.PdfEntry | backend/gerador_relatorios.py:202-216 | the sanitised texts `salvar_pdf` writes for one result; none when a required key is missing; count in `PdfOptionalFields` |
| GeradorRelatorios.CsvRow | backend/gerador_relatorios.py:94-116 | the twelve CSV cells of a result, with the source's defaults; agreement with the ODS row in `RowsAgree` |
| GeradorRelatorios.OdsRow | backend/gerador_relatorios.py:285-299 | the twelve ODS cells of a result, with the same defaults; agreement with the CSV row in `RowsAgree` |
| GeradorRelatorios.TxtOptionalFields | backend/gerador_relatorios.py:60-73 | a TXT entry is five fixed lines, the observation line exactly when there is one, the evidence line exactly when there is one, then the separator |
| GeradorRelatorios.PdfOptionalFields | backend/gerador_relatorios.py:202-216 | the PDF writes four texts per result, plus one for each optional field the result holds |
| GeradorRelatorios.Extensao | backend/gerador_relatorios.py:328-342 | each format's extension is three or four letters |
| GeradorRelatorios.Formatos | backend/gerador_relatorios.py:326-344 | TXT, CSV, JSON and XML are always written; PDF and ODS iff their writers did not fail |
| GeradorRelatorios.Gravados | backend/gerador_relatorios.py:326-344 | the result has exactly the formats written, each with the path its writer returned |
| GeradorRelatorios.Escritos | backend/gerador_relatorios.py:326-344 | the result has exactly the formats written, each with the path named for it |
| GeradorRelatorios.Arquivos | backend/gerador_relatorios.py:315-345 | a result exists iff every result dictionary has the keys the TXT writer reads and no XML child text is `True`; it maps exactly the formats written to their paths |
| GeradorRelatorios.FalseIdReportsWritten | backend/gerador_relatorios.py:251-254 | a result whose id is `False` still gets every report format written |
| GeradorRelatorios.Gerador.constructor | backend/gerador_relatorios.py:15-26 | the generator keeps its output directory |
| GeradorRelatorios.Gerador.GerarNomeArquivo | backend/gerador_relatorios.py:28-41 | the path is `Caminho` of the directory, the body, the format and the clock reading |
| GeradorRelatorios.Gerador.NomearArquivos | backend/gerador_relatorios.py:326-344 | naming each format in the writers' order gives `Escritos` |
| GeradorRelatorios.Gerador.Nomear | backend/gerador_relatorios.py:328-342 | one writer's path is recorded under its format |
| GeradorRelatorios.Gerador.GerarTodosFormatos | backend/gerador_relatorios.py:315-345 | each writer in turn, the TXT and XML failures raised and the PDF and ODS failures swallowed, computes `Arquivos` |
| ImportData.TipoKeyFirstMatch | backend/import_data.py:80-99 | a body is never typed as a municipality; it stays "poder_executivo" iff its name holds none of the nine words, and otherwise takes the kind of the first word, in the order tried, that it holds |
| ImportData.TipoKey | backend/import_data.py:80-99 | the body's kind from the first of nine words in its name, else executive power; `TipoKeyFirstMatch` states it |
| ImportData.LinksMunicipio | backend/import_data.py:59-74 | a municipality gets a site link iff its cell is filled and not "(A ser determinado)", a council link iff its council cell is filled, and every link points at that municipality |
| ImportData.SemParenteses | backend/import_data.py:121 | removing the parentheses leaves none and keeps every other character that occurs |
| ImportData.ExtendsTrans | backend/import_data.py:49-123 | appending to the tables twice is appending to them |
| ImportData.MunicipiosDistinct | backend/import_data.py:47-76 | the first pass only appends municipalities, each under a name not seen before and all different, and every name of the sheet ends up seen or appended |
| ImportData.MunicipioStepValid | backend/import_data.py:50-76 | one municipality row keeps every link on a body of the table |
| ImportData.MunicipiosValid | backend/import_data.py:49-76 | the first pass keeps every link on a body of the table |
| ImportData.Municipios | backend/import_data.py:47-76 | the first pass: one body per new municipality name, with a site link when the site cell is filled and not "(A ser determinado)" and a council-site link when that cell is filled; `MunicipiosDistinct` and `MunicipiosValid` state it |
| ImportData.MunicipioStep | backend/import_data.py:48-75 | one row of the first pass: a municipality named and not yet seen is appended with its links and its name marked seen; any other row changes nothing |
| ImportData.OrgaoStep | backend/import_data.py:79-123 | one row of the second pass: a named body with an official site is appended with its kind, its site link and its portal link without parentheses |
| ImportData.OrgaoStepShape | backend/import_data.py:79-123 | a row adds a body exactly when its executive cell is filled and non-empty and it has an official site; the body gets the site link, and the portal link stripped of parentheses exactly when the sheet has one |
| ImportData.OrgaosValid | backend/import_data.py:79-123 | the second pass keeps every link on a body of the table |
| ImportData.Orgaos | backend/import_data.py:79-123 | the second pass: each named body with an official site, its kind, its site and its portal without parentheses; `OrgaosValid` states it |
| ImportData.Importacao | backend/import_data.py:6-125 | `importar_dados_planilha`: the first pass, then the second, over the same rows; `ImportacaoValid` states it |
| ImportData.ImportacaoValid | backend/import_data.py:6-125 | importing a sheet keeps every link on a body of the table |
| ImportData.Sessao.Estado | backend/import_data.py:10-11 | the session's state is its two tables |
| ImportData.Sessao.constructor | backend/import_data.py:8-11 | a new database starts with no bodies and no links |
| ImportData.Sessao.AdicionarOrgao | backend/import_data.py:56-57 | adding and flushing a body appends it, and its id is its position |
| ImportData.Sessao.AdicionarLink | backend/import_data.py:66 | adding a link appends it and leaves the bodies alone |
| ImportData.Sessao.ProcessarMunicipios | backend/import_data.py:47-76 | the first loop computes `Municipios` of the state before, with no name seen yet |
| ImportData.Sessao.ProcessarOrgaos | backend/import_data.py:79-123 | the second loop computes `Orgaos` of the state before |
| ImportData.Sessao.ImportarDadosPlanilha | backend/import_data.py:6-125 | the two passes compute `Importacao` and keep every link on a body |

## Left out

- HTTP, HTML parsing and web search are left out. A `Net` value answers every request the same way each time. Pages are reduced to the elements the heuristics read. The search engines and the Selenium browser are functions from query to results. Timeouts, user agents, random sleeps and human-like browsing are not modelled.
- `unidecode` is modelled for Latin-1 letters and the ordinal signs only, and Python's `lower` for ASCII and Latin-1 capitals. Other characters pass through unchanged.
- Regular expressions (dates, years, domain patterns, URL filters) are modelled as the explicit predicates they test.
- The clock is a parameter. In `gerar_todos_formatos` each format's writer gets its own clock reading.
- Files and databases are left out:
  - the JSON cache file is an in-memory map;
  - the spreadsheets are given as lists of rows, so `load_data`, `carregar_dados_csv` and reading the workbook are not modelled;
  - database tables are sequences, and a row's id is its position.
- Writing TXT, CSV, JSON, PDF, XML and ODS files is left out. The model keeps each file's name and content rows. JSON serialisation, PDF layout and font handling are not modelled. A failure of the PDF or ODS writer is an input flag.
- GeradorRelatorios.Sanitizar: its input is a string, so the `None` case of `sanitizar_texto` is not modelled. An empty string gives the empty string, as in the source.
- GeradorRelatorios.TimestampShape: the shape is stated only for years 1000 to 9999, where `%Y` prints four digits.
- GeradorRelatorios.Extensao: formats are a datatype rather than extension strings. The extension is the key of the result dictionary.
- Threads and transport are left out. These are the Flask routes, the `/api/criteria` route, the server-sent-event stream `stream_resultados` and the worker thread. The worker runs as a method after `App.Backend.Start`.
- App.Backend.ExecutarScraping: the oracles never raise, so the `except` branch does not occur. That branch is the error message at progress 100. The `finally` part, the completion event and the cleared flag, is modelled.
- VerificadorNovo.Insert and VerificadorNovo.SortDesc: the sort is proved to be ordered and a permutation. That it is stable, as Python's `sorted` is, is not stated.
- VerificadorNovo.PalavrasChave: `list(set(...))` has no defined order, so the keywords are a set. The two terms typed into the site's search box (`palavras_chave[:2]`) are left to the browser oracle, per keyword set.
- VerificadorNovo.VerificadorTransparencia.BuscarSitesDoOrgao: driver errors are not modelled, so its exception path is absent.
- The question catalogues (`obter_perguntas_padrao` and the criteria JSON) are constant data. They are given as parameters.
- `scraper.avaliar_transparencia` is not part of this model. It passes URL strings to checks that expect parsed pages.
- `backend/verificador_transparencia.py` is glue and is not part of this model.
- VerificadorSiteOficial.VerificarSiteOficial: a page's title is a string, "" when there is no `<title>`. When `<title>` exists but its `.string` is `None` (it is empty or has several children), the source raises `AttributeError` at `titulo.lower()`. The model does not capture that exception.
- Scraper.LinksIn: a link's text is the anchor's text with outer whitespace stripped. `get_text(strip=True)` strips each text fragment of the anchor and joins them with no separator, so whitespace between nested elements is dropped there. The model keeps one text per anchor and does not capture that difference.
- VerificadorSiteOficial.Verificacao: when the request raises, the message is "Erro ao acessar o site: " without the exception's text, which the model does not have.
- PageChecks.OptionYears: `str.isdigit` and `\d` accept every Unicode decimal digit; the model accepts ASCII digits only. The same holds for `PageChecks.YearTokenAt` and `PageChecks.TextYears`, whose word characters for `\b` are limited to ASCII and Latin-1.
- LinkFinder.PortalPattern: `.*` in the patterns does not cross a newline; the model lets the gap hold any character, so a URL with a newline between the two parts is accepted here and not by the source.
- VerificadorNovo.Pontuacao, VerificadorNovo.Explored, VerificadorNovo.Verdict and App.QuestionProgress: scores and progress are exact reals, while the source computes them with binary floating point. Rounding is not modelled. For example, 7 of 20 keywords plus the table and image bonuses make 0.49999999999999994 in the source, which is below the 0.5 exploration threshold, but exactly 0.5 in the model. The same holds at the 0.3 verdict threshold and in the progress percentage.
- VerificadorNovo.Verificacao and VerificadorNovo.Record: the observation is a constructor rather than the source's text. `Erro` stands for "Erro: " followed by the exception's text, which the model does not have. `Pontuada(p)` stands for "Pontuação: " with `p` formatted as a whole percentage, and that formatting is not modelled.
- ImportData.Cell: spreadsheet cells are read as text or missing. A numeric "Poder Executivo" cell or a numeric portal cell makes the source raise `TypeError` (`'Legislativo' in nome` at import_data.py:82, `.replace('(', '')` at import_data.py:121). That exception path is not modelled.
