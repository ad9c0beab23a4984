# Piotroski F-Score screener — a Dafny model

This project models the core of a stock screener for Nordic equities that
ranks tickers by price momentum and by the Piotroski F-Score. The F-Score
is nine yes/no signals computed from one company's two-period
fundamentals. They cover profitability, cash flow, leverage, liquidity,
dilution, margin and asset turnover, and the score counts the true ones.

The model covers:

- the shared `FinancialData` record, `ParseOptions`, and the untyped
  dictionaries built before a record exists (`Models`);
- the nine signals with division by zero read as 0 (`Parser`);
- counting the signals, and scoring a named company (`FScorePipeline`);
- the hardcoded ground-truth table and fetcher for Intellego, SAAB and
  BioArctic (`TestData`, `HardcodedFetcher`);
- the older stand-alone calculator with its `max(denominator, 1)` ratios,
  its nine-entry breakdown and its weekly JSON cache (`LegacyFScore`);
- the fundamentals resolver of the screener package (`Scraper`): a 30-day
  cache before an ordered cascade of four sources, the data-quality gate,
  default filling, the AI-parser adapter and the hardcoded fallback;
- the table helpers of that resolver: fiscal-year columns, year headers,
  numeric cells, metric lookup and the row rules (`TableParsing`);
- the post-processing half of the AI PDF parser (`AiPdfParser`):
  table-of-contents pages and sections, page numbers, page windows, the
  keyword fallback, report lookup, the extraction plan, reading the
  model's JSON reply, and conversion into a record. The copy in
  `data-fetcher/ai_pdf_parser.py` (lines 75-188, 282-306 and 456-534) is
  the same code line for line as `src/screener/data/pdf_parser.py`
  (lines 167-280, 374-398 and 588-667), so one set of members models both.
  The older copy's own `extract_financial_data_from_pdf` has the same
  missing-file check (lines 339-340) and 15-page cap (line 357) that
  `AiPdfParser.PlanExtraction` states;
- the text-based PDF statement finder (`PdfTextParser`): page markers,
  first-pattern statement selection with its context window,
  `_parse_number`, and the lazily filled parser object;
- the momentum screeners (`Screener` for `screener.py`, `Momentum` for
  `src/screener/core/momentum.py`): trading-day adjustment, horizons,
  cache freshness and gating, the order-free cache key, ticker dedupe and
  suffix filter, the F-Score column with its 0 fallback and minimum
  filter, the `top_n` head, and CSV ticker cleaning.

`Wrappers` holds `Option` and `Result`. `Text` holds the Python string
operations the code uses (lower, strip, `in`, endswith, replace, split,
digit conversion), with ASCII case and digits and Python's whitespace set.

Where the code says something other than its comments, the model follows
the code:

- on a Sunday, `find_closest_trading_day` in `screener.py` moves back to
  Friday, not forward to Monday as its comment says;
- `is_cache_fresh` in `screener.py` ignores `max_age_days`;
- the `json_end != -1` guard of `_parse_ai_response` can never fail
  (`AiPdfParser.RFind`);
- the fourth page-number pattern is never the one that decides
  (`AiPdfParser.DotPatternNeverDecides`);
- the empty-or-dash guard of `_extract_numeric_value` decides nothing
  (`TableParsing.EmptyOrDashHasNoNumber`).

Amounts are exact `real`s. I/O is passed in as parameters: page texts,
table cells, whether a file exists, file ages, what was read from a
cache, each data source's outcome, and the replies of the language model
and of the JSON decoder.

## Model

| member | source | states |
|---|---|---|
| Parser.SafeDiv | src/screener/analysis/parser.py:73-74 | a zero denominator gives 0; otherwise the result times the denominator is the numerator |
| Parser.ParseFinancials | src/screener/analysis/parser.py:43-130 | the result has exactly the nine signal keys, in the order roa_positive … asset_turnover_improved |
| Parser.OmittedOptionsAreDefault | src/screener/analysis/parser.py:69-70 | leaving the options out is the same as passing ParseOptions(True, 0.0, None) |
| Parser.TiesNeverScore | src/screener/analysis/parser.py:76-118 | every comparative test is strict: equal ratios (or equal debt in absolute mode) never earn the signal |
| Parser.LeverageModesAgreeOnEqualAssets | src/screener/analysis/parser.py:86-94 | with the same positive total assets in both years the ratio and the absolute leverage tests give the same answer |
| Parser.AbsoluteLeverageIgnoresAssets | src/screener/analysis/parser.py:92-94 | in absolute mode the leverage signal does not depend on total assets |
| Parser.NoNewSharesWithinThreshold | src/screener/analysis/parser.py:101-105 | with positive previous shares and threshold t ≥ 0, no_new_shares holds iff shares_cur ≤ shares_prev·(1+t) |
| Parser.ZeroThresholdIsStrict | src/screener/analysis/parser.py:101-105 | a threshold of 0 is the strict rule: no_new_shares iff shares did not grow |
| Parser.ZeroPreviousSharesPass | src/screener/analysis/parser.py:104-105 | with no previous shares the relative change reads as 0, so every non-negative threshold passes |
| Parser.ThresholdMonotone | src/screener/analysis/parser.py:105 | raising the threshold can only turn no_new_shares from false to true |
| Parser.OverrideDecidesTurnover | src/screener/analysis/parser.py:113-114 | a set asset_turnover_override is the turnover signal |
| Parser.OverrideTouchesOnlyTurnover | src/screener/analysis/parser.py:112-118 | the override leaves the first eight signals unchanged |
| Models.ToFinancialData | data-fetcher/ai_pdf_parser.py:25-61 | building a record succeeds iff every key is a field, all 18 amounts are numbers and the three provenance keys are absent, null or strings; the amounts are then taken in field order and source_url, report_date and data_collected_at are the given strings or None |
| Models.AmountsRequired | data-fetcher/ai_pdf_parser.py:29-56 | leaving out any of the 18 amounts fails (no amount has a default) |
| Models.ProvenanceDefaultsToNone | data-fetcher/ai_pdf_parser.py:58-61 | the three provenance fields can be left out and then read as None |
| Models.DefaultOptions | data-fetcher/models.py:77-79 | ParseOptions() is leverage by ratio, threshold 0.0, no turnover override |
| FScorePipeline.CountTrue | data_fetcher_fscore.py:39 | the count of true values is at most the length |
| FScorePipeline.CountTrueExtremes | data_fetcher_fscore.py:39 | the count is 0 iff all values are false, and the length iff all are true |
| FScorePipeline.ComputeFScore | data_fetcher_fscore.py:21-39 | the score is at most the number of signals |
| FScorePipeline.ScoreExtremes | data_fetcher_fscore.py:21-39 | the score is 0 iff no signal holds, and the number of signals iff all hold |
| FScorePipeline.CountTrueIsMultiplicity | data_fetcher_fscore.py:39 | the count equals the multiplicity of true among the values |
| FScorePipeline.ScoreCountsTrueEntries | data_fetcher_fscore.py:39 | the score is the number of entries whose value is true |
| FScorePipeline.ScoreOfRemoval | data_fetcher_fscore.py:39 | removing one entry lowers the score by that entry's 0/1 value |
| FScorePipeline.ScoreIgnoresOrder | data_fetcher_fscore.py:39 | two metric lists with the same entries in any order have the same score |
| FScorePipeline.RemovalKeepsPermutation | data_fetcher_fscore.py:39 | removing one shared entry from two permutations leaves two permutations |
| FScorePipeline.ScoreAtMostNine | data_fetcher_fscore.py:36-39 | the score of every parsed record lies in 0..9 |
| FScorePipeline.ScoreCompany | data_fetcher_fscore.py:42-67 | scoring succeeds exactly for the names the fetcher knows, and the score is at most 9 |
| FScorePipeline.PerfectSignals | tests/test_fscore_calculation.py:12-32 | the perfect company earns all nine signals |
| FScorePipeline.PerfectCompanyScoresNine | tests/test_fscore_calculation.py:12-32 | the perfect company scores 9 |
| FScorePipeline.TerribleSignals | tests/test_fscore_calculation.py:35-54 | the terrible company earns no signal |
| FScorePipeline.TerribleCompanyScoresZero | tests/test_fscore_calculation.py:35-54 | the terrible company scores 0 |
| FScorePipeline.MixedSignals | tests/test_fscore_calculation.py:57-77 | the turnover tie 1000/2000 = 900/1800 earns nothing; the mixed company's nine signals, one by one |
| FScorePipeline.MixedCompanyScoresSix | tests/test_fscore_calculation.py:57-77 | the mixed company scores 6 |
| FScorePipeline.ZeroSignals | tests/test_fscore_calculation.py:80-103 | the all-zero company earns only no_new_shares |
| FScorePipeline.ZeroCompanyScoresOne | tests/test_fscore_calculation.py:80-103 | the all-zero company scores 1 |
| FScorePipeline.IntellegoSignals | data-fetcher/test_data.py:178-212 | the nine signals of the Intellego record with default and with custom options |
| FScorePipeline.SaabSignals | data-fetcher/test_data.py:178-212 | the nine signals of the SAAB record with default and with custom options |
| FScorePipeline.BioArcticSignals | data-fetcher/test_data.py:178-212 | the nine signals of the BioArctic record with default and with custom options |
| FScorePipeline.IntellegoScores | data_fetcher_fscore.py:75-80 | Intellego scores 5 by default and 6 with asset_turnover_override=True |
| FScorePipeline.SaabScores | data_fetcher_fscore.py:81-85 | SAAB scores 6 by default and 5 with leverage_use_ratio=False |
| FScorePipeline.BioArcticScores | data_fetcher_fscore.py:86-90 | BioArctic scores 6 by default and 7 with share_change_threshold=0.005 |
| FScorePipeline.ExpectedScoresHold | data-fetcher/test_data.py:178-194 | with default options every test company scores what get_expected_f_scores lists |
| TestData.GetExpectedFScores | data-fetcher/test_data.py:178-194 | one score for each of the three test companies, each at most 9 |
| TestData.GetExpectedFScoresCustom | data-fetcher/test_data.py:197-212 | one score for each of the three test companies, each at most 9 |
| FScorePipeline.CustomScoresHold | data-fetcher/test_data.py:197-212 | with the per-company options the companies score what get_expected_f_scores_custom lists |
| TestData.GetTestFinancialData | data-fetcher/test_data.py:39-175 | a record is returned iff the lower-cased, stripped name is a mapping key, and it is one of the three records |
| TestData.NormalizeCompanyName | data-fetcher/test_data.py:226-247 | a name is returned iff the lower-cased, stripped input is a mapping key, and it is one of TEST_COMPANIES |
| TestData.GetTestCompanies | data-fetcher/test_data.py:215-223 | three distinct names, each a mapping value, and every mapping value among them |
| TestData.AliasesAreMappingKeys | data-fetcher/test_data.py:22-36 | the three alias sets together are exactly the mapping's keys, each mapped to its own company |
| TestData.MappingValuesAreTestCompanies | data-fetcher/test_data.py:15-36 | the mapping's values are exactly TEST_COMPANIES |
| TestData.NormaliseAgreesWithRecords | data-fetcher/test_data.py:61-175 | normalising succeeds exactly on the inputs for which a record is returned |
| TestData.NormaliseExamples | data-fetcher/test_suite.py:31-41 | "SAAB AB" normalises to "SAAB" and "bioarctic b" to "BioArctic" |
| TestData.NormaliseIgnoresCaseAndBlanks | data-fetcher/test_data.py:244-247 | for every name: it normalises exactly when its lower-cased, stripped form does, and to the same company |
| TestData.NormaliseIntellegoExample | data-fetcher/test_data.py:244-247 | the instance "  Intellego " normalises to "Intellego Technologies" |
| TestData.UnknownNamesRefused | data-fetcher/test_data.py:244-247 | "Unknown Company", the empty name and a blank name are refused both by normalising and by the record lookup |
| TestData.UnknownCompanyRefused | data-fetcher/test_data.py:173-175 | "Unknown Company" is refused by both lookups |
| TestData.EmptyNameRefused | data-fetcher/test_data.py:173-175 | the empty name is refused by both lookups |
| TestData.BlankNameRefused | data-fetcher/test_data.py:173-175 | a blank name strips to the empty name and is refused by both lookups |
| TestData.RecordsArePositive | data-fetcher/test_suite.py:43-51 | every record has positive revenue and total assets in both years |
| HardcodedFetcher.FetchFinancials | data-fetcher/fetcher.py:32-172 | ValueError exactly when the lower-cased, stripped name is in none of the three alias sets |
| HardcodedFetcher.FetchUsesNormalisedName | data-fetcher/fetcher.py:54 | only the lower-cased, stripped name matters |
| HardcodedFetcher.AliasesShareRecord | data-fetcher/fetcher.py:56-168 | every alias of a company yields that company's record |
| HardcodedFetcher.IntellegoAlias | data-fetcher/fetcher.py:56-93 | each Intellego alias yields the Intellego record |
| HardcodedFetcher.SaabAlias | data-fetcher/fetcher.py:95-129 | each SAAB alias yields the SAAB record |
| HardcodedFetcher.BioArcticAlias | data-fetcher/fetcher.py:131-168 | each BioArctic alias yields the BioArctic record |
| HardcodedFetcher.IntellegoResolves | data-fetcher/fetcher.py:56-93 | "Intellego Technologies" resolves to the Intellego record |
| HardcodedFetcher.SaabResolves | data-fetcher/fetcher.py:95-129 | "SAAB" resolves to the SAAB record |
| HardcodedFetcher.BioArcticResolves | data-fetcher/fetcher.py:131-168 | "BioArctic" resolves to the BioArctic record |
| HardcodedFetcher.EmptyNameRaises | data-fetcher/fetcher.py:170-172 | "" raises ValueError |
| HardcodedFetcher.BlankNameRaises | data-fetcher/fetcher.py:170-172 | "   " raises ValueError |
| HardcodedFetcher.UnsupportedNamesRaise | data-fetcher/fetcher.py:170-172 | "Unknown Company" raises ValueError |
| HardcodedFetcher.NameSetsByInitial | data-fetcher/fetcher.py:56-131 | every Intellego alias begins with i, every SAAB alias with s, every BioArctic alias with b, so the three sets are disjoint |
| HardcodedFetcher.RecordsArePositive | data-fetcher/test_suite.py:43-51 | every returned record has positive revenue and total assets in both years |
| HardcodedFetcher.AgreesWithTestData | data-fetcher/test_suite.py:197-205 | the fetcher and get_test_financial_data agree on every input, record and error alike |
| LegacyFScore.MaxOne | fscore.py:106-111 | max(x, 1): at least 1 and at least x, and one of the two |
| LegacyFScore.Bit | fscore.py:140 | `1 if b else 0`: at most 1; it is 1 exactly when b holds, and 0 exactly when it does not |
| LegacyFScore.ConvertFinancialData | fscore.py:100-123 | current-year income, cash flow and shares are copied; every ratio times max(denominator, 1) is its numerator, with equity = assets − long-term debt − current liabilities |
| LegacyFScore.ConvertIgnoresPreviousYear | fscore.py:100-123 | only current-year fields enter the conversion |
| LegacyFScore.RatiosAgreeWithParser | fscore.py:106-111 | where a denominator is at least 1 the old ratio equals the parser's safe_div ratio |
| LegacyFScore.SmallDenominatorIsOne | fscore.py:106-111 | below 1 the denominator is replaced by 1, so the ratio is the numerator |
| LegacyFScore.BitsSumAtMostNine | fscore.py:136-179 | nine 0/1 entries total at most 9 |
| LegacyFScore.PiotroskiBreakdown | fscore.py:125-183 | every entry is 0/1 and the total is their sum (≤ 9); has_previous_year iff a previous year is given; without it the five comparative entries are 0 and the total ≤ 4; ticker is 'unknown' |
| LegacyFScore.EntryMeanings | fscore.py:140-177 | each entry is 1 exactly when its strict comparison holds, except no_share_dilution, which allows equality |
| LegacyFScore.CalculatePiotroskiFScore | fscore.py:125-183 | the breakdown filled test by test, with the running score, equals PiotroskiBreakdown |
| LegacyFScore.SameYearComparatives | fscore.py:154-170 | comparing a year with itself earns only no_share_dilution among the comparative tests |
| LegacyFScore.PreviousYearOnlyAdds | fscore.py:151-177 | adding a previous year never lowers the score and raises it by at most 5 |
| LegacyFScore.CacheStem | fscore.py:63 | same length; '.' and '-' become '_', every other character is kept |
| LegacyFScore.FScoreCacheFile | fscore.py:60-63 | the path starts with cache/fscore_ and ends with .json, and what lies between is exactly the ticker's stem, so it is 18 characters longer than the ticker |
| LegacyFScore.DotAndDashShareCacheFile | fscore.py:63 | tickers differing only in '.' versus '-' share a cache file |
| LegacyFScore.CacheFileDeterminesStem | fscore.py:60-63 | two tickers share a cache file iff their stems are equal |
| LegacyFScore.LoadFScoreFromCache | fscore.py:65-85 | a result comes back iff the file exists, is younger than 7 days and was readable, and it is the stored one |
| LegacyFScore.CompanyFor | fscore.py:271-286 | a ticker in the table maps to its company name, any other ticker to itself |
| LegacyFScore.FreshResult | fscore.py:266-334 | without the cache: revenue_cur > 0 takes the enhanced path with no previous year; otherwise a Yahoo exception is all_sources_failed, no Yahoo data is insufficient_data (total 0), Yahoo data is scored without a previous year; the total is at most 9 |
| LegacyFScore.HardcodedTickersUseEnhancedPath | fscore.py:291-309 | INT.ST, SAAB-B.ST and BIOA-B.ST take the enhanced path and score at most 4 |
| LegacyFScore.UnknownTickerFallsBackToYahoo | fscore.py:314-320 | a ticker outside the table is refused by the fetcher, so missing Yahoo data gives insufficient_data |
| LegacyFScore.EnhancedResult | fscore.py:286-309 | when the hardcoded record loads with positive revenue, the fresh result is the breakdown of the converted record, tagged enhanced_data_fetcher, and it is cached |
| LegacyFScore.YahooResult | fscore.py:314-334 | off the enhanced path, a raised Yahoo block gives the uncached all_sources_failed error, no data the cached insufficient_data error, data its breakdown tagged yahoo_finance |
| LegacyFScore.FScoreCache.constructor | fscore.py:52-58 | the cache directory starts empty |
| LegacyFScore.FScoreCache.CalculateFScore | fscore.py:247-334 | with use_cache and a fresh readable entry the stored result is returned and nothing is written; otherwise the fresh result is returned and written unless it is all_sources_failed |
| LegacyFScore.FreshWriteIsServed | fscore.py:87-98 | a result just written is served from the cache on the next call |
| LegacyFScore.StaleEntryIgnored | fscore.py:65-72 | a cache file 7 or more days old is ignored |
| Scraper.MissingCount | src/screener/data/fetcher.py:470-475 | at most the number of fields, and 0 exactly when no field is absent, zero or None |
| Scraper.GateVerdict | src/screener/data/fetcher.py:460-504 | more than two missing critical fields reject; the gate raises only when revenue, net income or total assets is not a number |
| Scraper.IsDataSufficient | src/screener/data/fetcher.py:460-504 | the counting loop and the three checks reach the verdict GateVerdict states |
| Scraper.AcceptedDataIsMostlyPresent | src/screener/data/fetcher.py:477-480 | accepted data has at most two of the eight critical fields missing and a numeric revenue |
| Scraper.PlausibleDataPasses | src/screener/data/fetcher.py:482-504 | complete data with assets ≥ 0.1·revenue and, for revenue below 10, an absolute net income of at most 2·revenue, passes |
| Scraper.ZeroCashFlowRejected | src/screener/data/fetcher.py:498-501 | revenue above 1000 with cash flow exactly 0 is rejected |
| Scraper.Filled | src/screener/data/fetcher.py:506-530 | the keys are the old keys plus the 14 default keys; present keys keep their values; absent ones get 0.0, or 1000000.0 for shares |
| Scraper.FillMissingData | src/screener/data/fetcher.py:506-530 | the in-place loop over the defaults produces Filled(data) |
| Scraper.FillStep | src/screener/data/fetcher.py:526-529 | one iteration gives an absent default key its default and leaves a present one alone |
| Scraper.FillKeySetStep | src/screener/data/fetcher.py:526-529 | the default keys handled grow by one key per iteration |
| Scraper.FilledByLoop | src/screener/data/fetcher.py:526-529 | the loop's end state is exactly Filled(data) |
| Scraper.FillIdempotent | src/screener/data/fetcher.py:526-528 | defaulting twice is defaulting once |
| Scraper.NoRevenueNoRecord | src/screener/data/fetcher.py:509-524 | revenue is never defaulted, so a dictionary without revenue_prev still cannot become a record |
| Scraper.AiAdapter | src/screener/data/fetcher.py:343-380 | a dictionary comes back iff the extraction is non-empty and its fiscal_years is readable; it has exactly the 21 fields, each amount read with its default, and the three provenance values |
| Scraper.AiDictionaryNeedsNoDefaults | src/screener/data/fetcher.py:352-374 | the adapter's dictionary carries revenue_cur and defaulting leaves it unchanged |
| Scraper.HardcodedName | src/screener/data/fetcher.py:538-545 | the three tickers map to their company names, any other input to itself |
| Scraper.HardcodedData | src/screener/data/fetcher.py:532-575 | succeeds iff the ground-truth table knows the mapped name, with its amounts and the hardcoded provenance; otherwise a ValueError quoting the name as given |
| Scraper.IntellegoTickerResolves | src/screener/data/fetcher.py:538-548 | INT.ST resolves to the Intellego amounts |
| Scraper.SaabTickerResolves | src/screener/data/fetcher.py:538-548 | SAAB-B.ST resolves to the SAAB amounts |
| Scraper.BioArcticTickerResolves | src/screener/data/fetcher.py:538-548 | BIOA-B.ST resolves to the BioArctic amounts |
| Scraper.CacheFileName | src/screener/data/fetcher.py:46-48 | the path starts with the cache directory and ends with _financial_data.json, and what lies between is exactly the lower-cased name with spaces replaced by underscores |
| Scraper.CacheFileNameDeterminesStem | src/screener/data/fetcher.py:46-48 | two companies share a cache file exactly when their lower-cased, underscored names agree |
| Scraper.SpaceAndUnderscoreShareCacheFile | src/screener/data/fetcher.py:46-48 | "Saab AB" and "saab_ab" share a cache file |
| Scraper.FirstAccepted | src/screener/data/fetcher.py:425-445 | the first source at or after i whose result is accepted, with every source before it rejected; None when none is |
| Scraper.TrySources | src/screener/data/fetcher.py:425-445 | the source loop stops at the first accepted source, having called exactly the sources up to it, and returns its data; with none accepted, all four are called and no data is returned |
| Scraper.FinancialDataScraper.constructor | src/screener/data/fetcher.py:34-40 | the cache directory starts empty |
| Scraper.FinancialDataScraper.FetchFinancials | src/screener/data/fetcher.py:382-458 | a cache hit returns the cached record, calls no source and writes nothing; otherwise sources are called in order up to the first accepted, whose defaulted dictionary is cached and built; with none accepted the hardcoded record, all four sources called and no write |
| Scraper.CacheKeyIsNormalised | src/screener/data/fetcher.py:402-403 | spellings differing only in case and surrounding blanks share one cache file |
| Scraper.CachedResultIsServed | src/screener/data/fetcher.py:405-410 | a dictionary just cached is a cache hit on the next call with caching on |
| Scraper.StaleOrDisabledCacheIgnored | src/screener/data/fetcher.py:50-57 | with caching off, or a file 30 or more days old, the cache never answers |
| Scraper.GateOnlyForStockAnalysis | src/screener/data/fetcher.py:429-436 | any source but StockAnalysis is accepted whenever its dictionary has revenue_cur |
| Scraper.FailuresAreSkipped | src/screener/data/fetcher.py:443-445 | a raising source or one returning None is never accepted |
| TableParsing.FirstYearFrom | src/screener/data/fetcher.py:165 | the leftmost \b20dd\b match at or after i, with no match before it; None when there is none |
| TableParsing.YearValue | src/screener/data/fetcher.py:167 | the matched year lies in 2000..2099 |
| TableParsing.ExtractYearFromHeader | src/screener/data/fetcher.py:163-168 | 0 or a year in 2000..2099 |
| TableParsing.ExtractYearMeaning | src/screener/data/fetcher.py:163-168 | 0 exactly when no year occurs; otherwise the value of the leftmost year |
| TableParsing.YearExamples | src/screener/data/fetcher.py:163-168 | "FY 2023" gives 2023, "TTM" and "12023" give 0, "2022 2023" gives 2022 |
| TableParsing.FiscalCandidates | src/screener/data/fetcher.py:143-156 | every candidate collected from the first n headers is a column index below n |
| TableParsing.FiscalCandidatesExactly | src/screener/data/fetcher.py:143-156 | a column below n is a candidate exactly when its header has no period term and has a fiscal marker or a 20xx year |
| TableParsing.FiscalCandidatesAscending | src/screener/data/fetcher.py:143-156 | the candidates are collected in ascending column order |
| TableParsing.CandidateKept | src/screener/data/fetcher.py:153-156 | a kept header appends its index |
| TableParsing.CandidateSkipped | src/screener/data/fetcher.py:149-150 | a header that is not kept leaves the candidates unchanged |
| TableParsing.InsertByYear | src/screener/data/fetcher.py:159 | one insertion adds the column and nothing else |
| TableParsing.InsertKeepsOrder | src/screener/data/fetcher.py:159 | inserting a later column into a by-year order keeps the order, ties staying in column order |
| TableParsing.SortByYear | src/screener/data/fetcher.py:159 | the sort is a permutation of the columns |
| TableParsing.SortIsOrdered | src/screener/data/fetcher.py:159 | sorting ascending columns gives most recent year first, ties in column order (a stable sort) |
| TableParsing.FiscalYearColumns | src/screener/data/fetcher.py:141-161 | every returned column indexes a header |
| TableParsing.FiscalYearColumnsMeaning | src/screener/data/fetcher.py:141-161 | exactly the headers without a period term and with a fiscal marker or a 20xx year, most recent first, ties in column order |
| TableParsing.IdentifyFiscalYearColumns | src/screener/data/fetcher.py:141-161 | collecting in a loop and then sorting yields FiscalYearColumns(headers) |
| TableParsing.MatchBody | src/screener/data/fetcher.py:184 | the integer digits are the maximal digit run at the start position; fraction digits are taken only after a following '.', and then they are the maximal digit run after it |
| TableParsing.MatchAt | src/screener/data/fetcher.py:184 | a match starts at i exactly when a digit, or a '-' directly followed by a digit, is there |
| TableParsing.FirstNumber | src/screener/data/fetcher.py:184-187 | the leftmost match at or after i; None exactly when no position matches |
| TableParsing.ExtractNumericValue | src/screener/data/fetcher.py:170-191 | a value iff the cleaned, lower-cased text holds no placeholder and some number matches; the value is that of the first match |
| TableParsing.NoLettersNoPlaceholder | src/screener/data/fetcher.py:176 | a text without lower-case letters contains no placeholder |
| TableParsing.NumericRoundTrip | src/screener/data/fetcher.py:170-191 | reading str(n), optionally signed, gives back n or −n |
| TableParsing.WholeMatchValue | src/screener/data/fetcher.py:186-188 | a match without fraction digits is worth its integer digits, with the sign |
| TableParsing.CleanCellNoop | src/screener/data/fetcher.py:173 | cleaning changes nothing in a text without blanks, commas or Unicode minus signs |
| TableParsing.SignedDigitsClean | src/screener/data/fetcher.py:173-177 | an optional '-' and a run of digits pass cleaning unchanged and contain no placeholder |
| TableParsing.SignedDigitsMatch | src/screener/data/fetcher.py:184 | an optional '-' and a run of digits match as a whole, with no fraction |
| TableParsing.EmptyOrDashHasNoNumber | src/screener/data/fetcher.py:179-181 | the empty-or-dash guard decides nothing: "" and "-" contain no number anyway |
| TableParsing.PlaceholdersRefused | src/screener/data/fetcher.py:175-177 | "N/A" gives None |
| TableParsing.ShortPlaceholderRefused | src/screener/data/fetcher.py:175-177 | "na" gives None |
| TableParsing.FirstLabelMatch | src/screener/data/fetcher.py:265-266 | the first entry at or after i whose label contains a keyword, none before it; None when none does |
| TableParsing.FindFinancialMetric | src/screener/data/fetcher.py:263-268 | None exactly when no label contains a keyword; otherwise the row of the first such label |
| TableParsing.Headers | src/screener/data/fetcher.py:99-100 | one header per cell of the first row, the i-th being that cell stripped |
| TableParsing.RowWrite | src/screener/data/fetcher.py:116-137 | at most one write; a write needs enough cells, has the stripped lower-cased label free of skip terms and both values numeric |
| TableParsing.DictSetProps | src/screener/data/fetcher.py:132 | d[k] = v keeps labels unique, stores v under k and leaves other labels alone |
| TableParsing.DictSetNew | src/screener/data/fetcher.py:132 | d[k] = v for a new label appends (k, v) at the end |
| TableParsing.DictSetAt | src/screener/data/fetcher.py:132 | d[k] = v for a label present at i replaces entry i in place, the rest unchanged |
| TableParsing.FirstLabelsProps | src/screener/data/fetcher.py:132-137 | the first-write label list has no repeats and holds exactly the written labels |
| TableParsing.DictFromMeaning | src/screener/data/fetcher.py:132-137 | the dictionary of a run of writes has the labels in first-write order, each with the row of its last write |
| TableParsing.DictFromProps | src/screener/data/fetcher.py:132-137 | the dictionary has unique labels, each entry comes from a write, and the last write is in it; first-write order and last-write values are DictFromMeaning |
| TableParsing.SecondRowIgnored | src/screener/data/fetcher.py:115-116 | the period-ending row is never read as data |
| TableParsing.IrrelevantTableIgnored | src/screener/data/fetcher.py:91-92 | a table whose text names no financial keyword writes nothing |
| TableParsing.RowsWritesClean | src/screener/data/fetcher.py:123-125 | no write of a table carries a label with a skip term |
| TableParsing.AllWritesClean | src/screener/data/fetcher.py:123-125 | no write of any table carries a label with a skip term |
| TableParsing.ParsedDictionary | src/screener/data/fetcher.py:82-139 | one entry per label, each written by some row, none with a skip term; a label is present iff some row writes it; labels stand in the order of their first write and each holds the row of its last write |
| TableParsing.ParseFinancialTable | src/screener/data/fetcher.py:82-139 | the nested loops build the dictionary of all writes in order, later writes to a label overwriting |
| TableParsing.ParseTable | src/screener/data/fetcher.py:91-135 | one table adds its rows' writes when its text names a statement, it has rows and two fiscal-year columns are found, and nothing otherwise |
| TableParsing.ParseRows | src/screener/data/fetcher.py:116-137 | the row loop of one table adds exactly that table's writes |
| TableParsing.WritesStep | src/screener/data/fetcher.py:116-137 | one more row adds exactly its own write |
| TableParsing.ParseRow | src/screener/data/fetcher.py:117-137 | one row is skipped or written as RowWrite says |
| AiPdfParser.SearchFromNone | src/screener/data/pdf_parser.py:247 | re.search gives None exactly when the pattern matches at no position |
| AiPdfParser.SearchFromLeftmost | src/screener/data/pdf_parser.py:247 | a match found is the capture at a position where the pattern matches and it matches nowhere earlier |
| AiPdfParser.SearchFromMeaning | src/screener/data/pdf_parser.py:247 | re.search gives None exactly when the pattern matches nowhere, otherwise the capture at the leftmost matching position |
| AiPdfParser.FirstPatternMatchMeaning | src/screener/data/pdf_parser.py:239-254 | None exactly when no pattern matches; otherwise the capture of the first pattern in list order that matches |
| AiPdfParser.ExtractPageNumber | src/screener/data/pdf_parser.py:233-254 | None exactly when none of the four patterns matches the stripped line |
| AiPdfParser.DotImpliesTrailing | src/screener/data/pdf_parser.py:242-243 | wherever '. N' matches at the end, the trailing-digits pattern matches N a little further on |
| AiPdfParser.DotPatternNeverDecides | src/screener/data/pdf_parser.py:239-254 | any page number found is found by one of the first three patterns |
| AiPdfParser.NoDigitsNoPage | src/screener/data/pdf_parser.py:239-254 | a line without a digit gives no page number |
| AiPdfParser.PagesBelow | src/screener/data/pdf_parser.py:173-190 | every kept page index lies below n |
| AiPdfParser.PagesBelowMembers | src/screener/data/pdf_parser.py:173-190 | exactly the page indices below n that pass the filter, ascending |
| AiPdfParser.PagesBelowExactly | src/screener/data/pdf_parser.py:173-190 | a page index is kept exactly when it lies below n and passes the filter |
| AiPdfParser.PagesBelowAscending | src/screener/data/pdf_parser.py:173-190 | the kept pages are in ascending order |
| AiPdfParser.GapAddsNoTocPages | src/screener/data/pdf_parser.py:184-190 | pages without a contents marker add nothing to the kept pages |
| AiPdfParser.PageKept | src/screener/data/pdf_parser.py:173-190 | a kept page joins the kept pages |
| AiPdfParser.PageSkipped | src/screener/data/pdf_parser.py:173-190 | a page that is not kept leaves the kept pages unchanged |
| AiPdfParser.ScanFrontPages | src/screener/data/pdf_parser.py:173-180 | the first scan keeps exactly the pages below min(50, n) naming a contents marker |
| AiPdfParser.ScanBackPages | src/screener/data/pdf_parser.py:184-189 | the second scan extends the kept pages up to min(200, n), keeping pages naming both statement phrases |
| AiPdfParser.TocPages | src/screener/data/pdf_parser.py:172-190 | the contents pages, ascending, all below 50 or in 100..199 |
| AiPdfParser.KeywordUpdate | src/screener/data/pdf_parser.py:221-227 | at most one update, naming the keyword's section name with a page of at least 1 |
| AiPdfParser.ApplyConcat | src/screener/data/pdf_parser.py:227 | applying two runs of updates is applying them one after the other |
| AiPdfParser.LastUpdateWins | src/screener/data/pdf_parser.py:227 | the last update of a name is the page stored for it |
| AiPdfParser.LineUpdatesGood | src/screener/data/pdf_parser.py:221-227 | every update of a line names a section name and a page of at least 1 |
| AiPdfParser.LinesUpdatesGood | src/screener/data/pdf_parser.py:216-227 | every update of a page's lines is good |
| AiPdfParser.TocUpdatesGood | src/screener/data/pdf_parser.py:200-227 | every update of the contents pages is good |
| AiPdfParser.ApplyGood | src/screener/data/pdf_parser.py:198-227 | good updates build a dictionary of section names to pages of at least 1 |
| AiPdfParser.TocSectionsAreNamedPages | src/screener/data/pdf_parser.py:167-231 | every section found is one of the eight section names, on a page of at least 1 |
| AiPdfParser.ApplySmall | src/screener/data/pdf_parser.py:227 | zero or one update stores nothing or that one page |
| AiPdfParser.ScanKeyword | src/screener/data/pdf_parser.py:221-227 | one keyword on one line performs exactly its KeywordUpdate |
| AiPdfParser.ScanLine | src/screener/data/pdf_parser.py:218-227 | one line performs the updates of all eight keywords in order |
| AiPdfParser.LinesStep | src/screener/data/pdf_parser.py:217-227 | scanning one more line adds exactly its updates |
| AiPdfParser.ScanLines | src/screener/data/pdf_parser.py:217-227 | the lines of a page perform their updates in order |
| AiPdfParser.ScanPage | src/screener/data/pdf_parser.py:201-227 | a contents page performs the updates of its lines |
| AiPdfParser.TocStep | src/screener/data/pdf_parser.py:200-227 | scanning one more contents page adds exactly its updates |
| AiPdfParser.FindTableOfContents | src/screener/data/pdf_parser.py:167-231 | the sections named on the contents pages, later findings overwriting earlier ones |
| AiPdfParser.Find | src/screener/data/pdf_parser.py:592 | str.find: -1 exactly when absent, otherwise the first occurrence |
| AiPdfParser.RFind | src/screener/data/pdf_parser.py:593 | str.rfind: -1 exactly when absent, otherwise the last occurrence; never below -1 |
| AiPdfParser.BraceSlice | src/screener/data/pdf_parser.py:592-596 | the text from the first '{' through the last '}', empty when no '}' follows |
| AiPdfParser.ParseAiResponse | src/screener/data/pdf_parser.py:588-615 | {} exactly when there is no '{' or the slice does not decode to an object; otherwise the object plus source and extraction_method, other keys unchanged |
| AiPdfParser.SectionsFrom | src/screener/data/pdf_parser.py:354-364 | exactly the truthy fields, renamed, in their fixed order |
| AiPdfParser.AiFindFinancialSections | src/screener/data/pdf_parser.py:344-372 | no reply, no '{' or an undecodable slice gives no sections; otherwise the sections are those read from the decoded brace slice; every section found has a non-zero page |
| AiPdfParser.InWindowSnoc | src/screener/data/pdf_parser.py:266-271 | one more section widens the window by its own pages p-2..p+1 |
| AiPdfParser.AscendingMembers | src/screener/data/pdf_parser.py:274 | sorted(set(...)): exactly the members, strictly ascending |
| AiPdfParser.FindFinancialPagesByKeywords | src/screener/data/pdf_parser.py:374-398 | exactly the pages whose lower-cased text holds a financial keyword, ascending |
| AiPdfParser.FindFinancialStatementPages | src/screener/data/pdf_parser.py:256-280 | with sections: exactly the existing 0-based pages within p-2..p+1 of a section page, strictly ascending; without: the keyword fallback |
| AiPdfParser.CompanyVariations | src/screener/data/pdf_parser.py:67-74 | six variations, the name as given first |
| AiPdfParser.FindReportInfo | src/screener/data/pdf_parser.py:77-86 | None exactly when no variation has a report for the year; otherwise that of the first that has one; the name as given wins when it has one |
| AiPdfParser.ReportType | src/screener/data/pdf_parser.py:462-464 | quarterly exactly when the lower-cased path names a quarter, quarterly or interim; annual otherwise |
| AiPdfParser.PlanExtraction | src/screener/data/pdf_parser.py:441-459 | FileNotFound exactly when the path is missing; no pages gives the empty result; otherwise the first 15 pages are requested |
| AiPdfParser.ExtractFinancialDataFromPdfFile | src/screener/data/pdf_parser.py:439-489 | an error exactly for a missing path; no sections or no reply give an empty result; otherwise the result is the parsed reply |
| AiPdfParser.ReportDateOf | src/screener/data/pdf_parser.py:650 | '2024' without fiscal_years; None exactly when fiscal_years is not a dictionary |
| AiPdfParser.Converted | src/screener/data/pdf_parser.py:652-664 | the record holds exactly the 21 FinancialData fields |
| AiPdfParser.FieldIsAmount | src/screener/data/pdf_parser.py:652-664 | a field that is not a provenance key is an amount key |
| AiPdfParser.ConvertedAmount | src/screener/data/pdf_parser.py:622-646 | each amount of the record is the extracted value, or its default when the key is absent |
| AiPdfParser.ConvertedFields | src/screener/data/pdf_parser.py:622-664 | every amount as extracted or defaulted, and the path, the report date and the time under the provenance keys |
| AiPdfParser.Defaulted | src/screener/data/pdf_parser.py:622-646 | absent amounts get 0.0 (shares 1000000.0); every present key keeps its value |
| AiPdfParser.ConvertToFinancialData | src/screener/data/pdf_parser.py:617-667 | the caller's dictionary as updated, and the record of its 21 fields; AttributeError when fiscal_years is not a dictionary |
| AiPdfParser.FillDefaults | src/screener/data/pdf_parser.py:643-646 | the defaulting loop yields Defaulted(extracted) |
| AiPdfParser.DefaultStep | src/screener/data/pdf_parser.py:643-646 | one iteration gives an absent amount key its default and leaves a present one alone |
| AiPdfParser.FieldSetStep | src/screener/data/pdf_parser.py:643-646 | the keys handled grow by one field per iteration |
| AiPdfParser.DefaultedByLoop | src/screener/data/pdf_parser.py:643-646 | the loop's end state is exactly the defaulted dictionary |
| AiPdfParser.FilteredIsConverted | src/screener/data/pdf_parser.py:654-664 | filtering the updated dictionary to the 21 fields gives Converted |
| AiPdfParser.ConvertSucceedsOnNumbers | src/screener/data/pdf_parser.py:617-667 | numeric amounts and a string or null report date always give a record whose source_url is the path |
| AiPdfParser.ExtraKeysDropped | src/screener/data/pdf_parser.py:654-664 | keys outside the 21 fields never reach the record |
| PdfTextParser.NonEmptyPages | data-fetcher/pdf_parser.py:60-64 | the pages list holds only non-empty texts, at most one per page |
| PdfTextParser.AllPagesKept | data-fetcher/pdf_parser.py:60-64 | when every page has text, the pages list is the page texts in order |
| PdfTextParser.EmptyPagesLeaveNothing | data-fetcher/pdf_parser.py:62-64 | pages without text leave neither a marker nor an entry |
| PdfTextParser.DumpNonEmpty | data-fetcher/pdf_parser.py:62-63 | one page with text makes the text content non-empty |
| PdfTextParser.MarkerAt | data-fetcher/pdf_parser.py:161 | a marker match is non-empty and lies within the text |
| PdfTextParser.MarkersFrom | data-fetcher/pdf_parser.py:161 | the marker starts lie in the text, strictly ascending |
| PdfTextParser.FirstMarkerAfter | data-fetcher/pdf_parser.py:163-166 | the index of the first marker after the position, every earlier one at or before it; the marker count when none is after |
| PdfTextParser.CountOfSplit | data-fetcher/pdf_parser.py:163-166 | markers split at r into those at or before and those after: r are at or before |
| PdfTextParser.PageNumberCounts | data-fetcher/pdf_parser.py:159-166 | with ascending markers the page number is the number of markers at or before the position |
| PdfTextParser.PageNumberMonotone | data-fetcher/pdf_parser.py:159-166 | a later position never gets an earlier page |
| PdfTextParser.DigitRunOfPrefix | data-fetcher/pdf_parser.py:161 | the digits of a page number followed by a non-digit are exactly the \d+ run |
| PdfTextParser.PageBlockMarker | data-fetcher/pdf_parser.py:63 | each page block's heading is a match of the marker pattern |
| PdfTextParser.MatchFrom | data-fetcher/pdf_parser.py:139 | the leftmost case-insensitive match at or after i, None exactly when there is none |
| PdfTextParser.FirstPattern | data-fetcher/pdf_parser.py:138-154 | the first pattern in list order that matches anywhere, at its leftmost match; None exactly when none matches |
| PdfTextParser.StatementAt | data-fetcher/pdf_parser.py:142-151 | name, first and last page of the match, and the text from max(0, start-500) to min(len, end+2000) |
| PdfTextParser.StatementsUpToIff | data-fetcher/pdf_parser.py:137-154 | a type is recorded exactly when one of its patterns matches, and then with its own statement |
| PdfTextParser.StatementKeys | data-fetcher/pdf_parser.py:137-154 | only the three statement types are recorded |
| PdfTextParser.StatementIsFirstPatternMatch | data-fetcher/pdf_parser.py:109-157 | at most one statement per type: that of the first matching pattern, at its leftmost match |
| PdfTextParser.ContextHoldsHeading | data-fetcher/pdf_parser.py:142-149 | the context holds the heading, and its first page is never after its last |
| PdfTextParser.NoDigitNoNumber | data-fetcher/pdf_parser.py:298-301 | float of a text without a digit fails |
| PdfTextParser.ParseNumber | data-fetcher/pdf_parser.py:288-301 | a text without a digit gives None; commas and blanks are dropped before float() (SeparatorDropped, CommaGroups, BlankGroups) |
| PdfTextParser.SeparatorDropped | data-fetcher/pdf_parser.py:291 | a comma or a blank inside the text is removed before float() reads it: inserting one between two parts that strip() leaves alone changes neither the cleaned text nor the parsed number |
| PdfTextParser.CommaGroups | data-fetcher/pdf_parser.py:291-301 | two digit runs joined by a comma read as the number of the joined digits, as without the comma |
| PdfTextParser.BlankGroups | data-fetcher/pdf_parser.py:291-301 | two digit runs joined by a blank read as the number of the joined digits, as without the blank |
| PdfTextParser.DigitGroups | data-fetcher/pdf_parser.py:291-301 | two digit runs with or without a comma or blank between them read as the value of the joined digits |
| PdfTextParser.CommaRemoved | data-fetcher/pdf_parser.py:291 | removing commas drops a comma between two texts |
| PdfTextParser.BlankRemoved | data-fetcher/pdf_parser.py:291 | removing commas and then blanks drops a blank between two texts |
| PdfTextParser.StrippedAlready | data-fetcher/pdf_parser.py:291 | strip() leaves a text alone whose ends are not whitespace |
| PdfTextParser.CleanNumberChars | data-fetcher/pdf_parser.py:291-295 | cleaning only drops characters, or adds the leading minus of a bracketed amount |
| PdfTextParser.NoDigitNoUnsigned | data-fetcher/pdf_parser.py:298-301 | an unsigned decimal needs a digit |
| PdfTextParser.UnsignedDigits | data-fetcher/pdf_parser.py:299 | a digit run reads as its decimal value |
| PdfTextParser.NumberRoundTrip | data-fetcher/pdf_parser.py:288-301 | _parse_number(str(n)) is n |
| PdfTextParser.BracketedRoundTrip | data-fetcher/pdf_parser.py:294-295 | _parse_number("(n)") is -n |
| PdfTextParser.PlainDigitsClean | data-fetcher/pdf_parser.py:291 | cleaning a digit run changes nothing |
| PdfTextParser.ParenDigitsClean | data-fetcher/pdf_parser.py:291-295 | cleaning "(digits)" gives "-digits" |
| PdfTextParser.NotNumbers | data-fetcher/pdf_parser.py:298-301 | "n/a" and "" give None |
| PdfTextParser.MergedKeys | data-fetcher/pdf_parser.py:176-190 | every merged key comes from the values parsed out of a recorded statement |
| PdfTextParser.PDFFinancialParser.constructor | data-fetcher/pdf_parser.py:29-33 | the path is kept; empty text, pages and statements |
| PdfTextParser.PageDumped | data-fetcher/pdf_parser.py:62-64 | a page with text appends its marker block to the dump and its text to the pages list |
| PdfTextParser.PageBlank | data-fetcher/pdf_parser.py:61-62 | a page without text leaves the dump and the pages list as they were |
| PdfTextParser.PDFFinancialParser.ExtractText | data-fetcher/pdf_parser.py:52-68 | text content is one marked block per non-empty page, pages the non-empty texts; nothing else changes |
| PdfTextParser.PDFFinancialParser.GetPageNumber | data-fetcher/pdf_parser.py:159-166 | the number of page markers at or before the position |
| PdfTextParser.PDFFinancialParser.FindFinancialStatements | data-fetcher/pdf_parser.py:109-157 | the statements dictionary becomes Statements(text) and is returned; nothing else changes |
| PdfTextParser.PDFFinancialParser.FindStatement | data-fetcher/pdf_parser.py:138-154 | the pattern loop of one type adds exactly that type's statement |
| PdfTextParser.StatementFound | data-fetcher/pdf_parser.py:139-151 | the first matching pattern adds the statement that starts at its match |
| PdfTextParser.FirstPatternAt | data-fetcher/pdf_parser.py:138-140 | a match at pattern p, with none before it, is the first pattern match |
| PdfTextParser.StatementMissing | data-fetcher/pdf_parser.py:138-153 | when no pattern matches, the statements are unchanged |
| PdfTextParser.PDFFinancialParser.ExtractFinancialData | data-fetcher/pdf_parser.py:168-190 | text and statements are computed only while empty; the result merges the parsed values in type order |
| PdfTextParser.PDFFinancialParser.MergeStatementValues | data-fetcher/pdf_parser.py:176-190 | the merged dictionary is the update, in type order, with the parsed values of each recorded statement |
| Screener.Weekday | screener.py:123-125 | date.weekday() of a proleptic Gregorian ordinal: 0 (Monday) to 6 (Sunday) |
| Screener.FindClosestTradingDay | screener.py:116-128 | weekdays unchanged, Saturday back 1 and Sunday back 2 days; the result is a weekday, a Friday for a weekend date |
| Screener.TradingDayNearBefore | screener.py:123-126 | the result lies at most two days before the date, never after it |
| Screener.TradingDayFixedIffWeekday | screener.py:123-128 | the date is kept exactly when it is a weekday |
| Screener.TradingDayIdempotent | screener.py:116-128 | applying the adjustment twice changes nothing more |
| Screener.DefaultHorizons | screener.py:100-114 | the default 3, 6 and 12 months at 21 days per month are 63, 126 and 252 trading days |
| Screener.MonthsToDaysMonotone | screener.py:113-114 | more months never give fewer days |
| Screener.MonthsToDays | screener.py:113-114 | the days are a whole multiple of the trading days per month, m of them |
| Screener.IsCacheFresh | screener.py:46-53 | a missing file is never fresh; an existing one is fresh both under and over the age limit |
| Screener.FreshnessIgnoresAge | screener.py:46-53 | neither the age nor max_age_days changes the verdict |
| Screener.LoadFromCache | screener.py:79-96 | force_refresh gives None without reading; otherwise an existing file's read result, a missing file None |
| Screener.FetchPrices | screener.py:130-171 | reads the cache only with use_cache, no force_refresh and an existing file; downloads exactly when no cached frame is returned; writes back every download when use_cache is set |
| Screener.ForceRefreshDownloads | screener.py:139-142 | force_refresh always downloads, and writes back exactly when use_cache is set |
| Screener.LexLeTotal | screener.py:42 | any two strings are ordered one way or the other by code points |
| Screener.LexLeAntisymmetric | screener.py:42 | strings ordered both ways are equal |
| Screener.LexLeTransitive | screener.py:42 | the string order is transitive |
| Screener.LexLeReflexive | screener.py:42 | every string is ordered with itself |
| Screener.Insert | screener.py:42 | insertion adds exactly the new string |
| Screener.InsertSorted | screener.py:42 | insertion into a sorted list keeps it sorted |
| Screener.SortStrings | screener.py:42 | sorted(tickers) is a permutation of the tickers |
| Screener.SortStringsSorted | screener.py:42 | sorted(tickers) is in ascending code-point order |
| Screener.SortedHeadLeast | screener.py:42 | the head of a sorted list is at most each of its members |
| Screener.SortedTail | screener.py:42 | the tail of a sorted list is sorted and holds the rest of the multiset |
| Screener.SortedUnique | screener.py:42 | two sorted lists with the same members are equal |
| Screener.CacheKeyOrderFree | screener.py:39-44 | the hashed string, and so the key, is the same for any order of the same tickers |
| Screener.CacheKeyInput | screener.py:39-44 | the hashed string starts with the sorted tickers joined by _ and ends with _start_end |
| Screener.Dedupe | screener.py:184 | dict.fromkeys: no repeats, the same members, never longer |
| Screener.FirstIndex | screener.py:184 | the first position of a member |
| Screener.DedupeKeepsFirstOrder | screener.py:184 | tickers appear in the order of their first occurrence |
| Screener.FirstIndexPrefix | screener.py:184 | a member of a prefix has its first position inside that prefix |
| Screener.DedupeDistinct | screener.py:184 | a list without repeats is left as it is |
| Screener.RestrictSuffixes | screener.py:185-186 | no or empty suffix list keeps all; otherwise exactly the tickers ending in an allowed suffix; in order and with repeats by RestrictSuffixesConcat |
| Screener.KeepWithSuffix | screener.py:186 | exactly the tickers that end in one of the suffixes; in order and with repeats by KeepWithSuffixSingle and KeepWithSuffixConcat |
| Screener.KeepWithSuffixSingle | screener.py:186 | one ticker is kept iff it ends in a suffix |
| Screener.KeepWithSuffixConcat | screener.py:186 | filtering a concatenation is the concatenation of the filtered parts, so order and repeats are kept |
| Screener.RestrictSuffixesConcat | screener.py:185-186 | the restriction distributes over concatenation the same way |
| Screener.KeepWithSuffixDistinct | screener.py:186 | filtering keeps the list free of repeats |
| Screener.ScreenTickersDistinct | screener.py:184-186 | the screened tickers have no repeats and all come from the input |
| Screener.ScreenTickers | screener.py:184-186 | a ticker is screened iff it is an input ticker and there is no restriction or it ends in an allowed suffix |
| Screener.ScoredRows | screener.py:234-243 | one row per ticker, its F-Score or 0 when that computation failed |
| Screener.CollectFScores | screener.py:234-241 | the loop appends, per ticker, its F-Score or 0 when the computation raised |
| Screener.MinFScoreFilter | screener.py:246-247 | no minimum keeps all rows; otherwise exactly the rows with f_score >= min; in order and with repeats by MinFScoreFilterSingle and MinFScoreFilterConcat |
| Screener.MinFScoreFilterSingle | screener.py:246-247 | with a minimum, one row is kept iff its f_score reaches it |
| Screener.MinFScoreFilterConcat | screener.py:246-247 | the mask distributes over concatenation, so row order and repeats are kept |
| Screener.MinFScoreFilterIdempotent | screener.py:246-247 | filtering twice is filtering once |
| Screener.MinFScoreKeepsBetter | screener.py:246-247 | a row scoring at least as well as a kept row is kept |
| Screener.Column | screener.py:243 | df["f_score"] = f_scores pairs each ticker with its score |
| Screener.ScreenFScores | screener.py:232-247 | no F-Score column unless include_f_score and the calculator are both available; otherwise the filtered scored rows |
| Screener.ScreenedScoresMeaning | screener.py:232-247 | a (ticker, score) survives exactly when the ticker is a column of the price frame, its score is its F-Score or 0, and it reaches the minimum |
| Screener.Head | screener.py:281-282 | the result is a prefix of the rows; no top_n or 0 keeps all rows |
| Screener.HeadBound | screener.py:281-282 | a positive n keeps min(n, rows) rows; a negative n keeps all but the last -n rows, none when -n is at least the row count |
| Screener.CleanCell | screener.py:331 | a cell is kept, stripped, exactly when it is present and not blank |
| Screener.CleanTickers | screener.py:331 | the stripped, non-empty cells, and nothing else; in order and with repeats by CleanTickersSingle and CleanTickersConcat |
| Screener.CleanTickersSingle | screener.py:331 | one cell gives its cleaned ticker, or nothing when it is empty after stripping |
| Screener.CleanTickersConcat | screener.py:331 | cleaning distributes over concatenation, so order and repeats are kept |
| Screener.CleanTickersStripped | screener.py:331 | every cleaned ticker is already stripped |
| Momentum.IsCacheFresh | src/screener/core/momentum.py:38-45 | a missing file is stale; otherwise fresh exactly when it is younger than max_age_days days |
| Momentum.FreshIsLegacyFresh | src/screener/core/momentum.py:38-45 | every file fresh here is fresh for the screener.py check |
| Momentum.FreshUnderLongerLimit | src/screener/core/momentum.py:45 | a longer limit keeps fresh files fresh |
| Momentum.NewerFileFresh | src/screener/core/momentum.py:43-45 | a file written later than a fresh one is fresh |
| Momentum.NoLimitNothingFresh | src/screener/core/momentum.py:45 | with a zero or negative limit every file whose modification time is not in the future is stale |
| Momentum.LoadFromCache | src/screener/core/momentum.py:47-55 | a stale file gives None; a fresh one gives its frame, None for FileNotFoundError or EmptyDataError, and lets any other read exception escape |
| Momentum.FetchPrices | src/screener/core/momentum.py:79-139 | fails exactly when the cache is consulted, is fresh and its read raises an uncaught exception; otherwise reads the cache only with use_cache and no force_refresh, downloads exactly when no cached frame is returned, and writes every download back when use_cache is set |
| Momentum.FetchAgreesWithLegacy | src/screener/core/momentum.py:81-87 | given the same freshness verdict and a read that raises no uncaught exception, both fetch_prices read, download, write and return the same |
| Momentum.FetchDisagreesOnRaisedRead | src/screener/core/momentum.py:52-55 | on a fresh file whose read raises, say, a ParserError, this fetch_prices fails while the screener.py one catches it, downloads and writes the cache |
| Momentum.CaughtByLegacy | screener.py:88-95 | screener.py catches every read exception, so only a frame read survives |
| Momentum.TradingDayAgreesOnWeekdays | src/screener/core/momentum.py:141-145 | the two versions agree exactly on weekdays; on a weekend date screener.py returns an earlier date |
| Momentum.FindClosestTradingDay | src/screener/core/momentum.py:141-145 | the date itself is returned, so a weekend date stays a weekend date |
| Momentum.LookbacksAreLegacyHorizons | src/screener/core/momentum.py:178-180 | the fixed 63, 126 and 252-row lookbacks are the screener.py default horizons |
| Momentum.MomentumScreen | src/screener/core/momentum.py:166-241 | empty exactly for an empty frame; fewer than 252 rows raise IndexError; otherwise every price column is ranked, and the frame's rows are the 0-defaulted, min-filtered F-Score rows exactly when include_f_score is set and the calculator imports |

## Left out

- Network access, the OpenAI client, the PDF libraries (fitz, pdfplumber, PyPDF2), BeautifulSoup and `urljoin` are foreign code. Their results enter as parameters: page texts, tokenised table cells, source outcomes and model replies.
- `json.load`/`json.loads` is a parameter, so JSON syntax is not modelled. Cache files are modelled by existence, age and read result; cache writes are recorded as flags and as the stored value. A failing cache write is not modelled.
- The clock (`time.time`, `datetime.now().isoformat()`) is a parameter. `hashlib.md5` is not modelled: `Screener.CacheKeyOrderFree` is about the string that is hashed.
- Floating point: amounts, ratios and returns are exact reals, so IEEE rounding, `inf` and `nan` are not modelled.
- The pandas momentum arithmetic is not modelled because it is floating-point library code. This covers `pct_change`/`iloc` ratios, the weighted momentum score, the composite `quality_momentum`, rounding, `ffill`/`dropna`, and DataFrame sorting.
- AiPdfParser.FindReportInfo: an entry for the year that is present but falsy (null or an empty object), which `if report_info:` skips in favour of the next variation, cannot be represented, since every entry is a full filename and URL record.
- Momentum.MomentumScreen: the order of the ranked rows (by `quality_momentum` or `mom_score`) is not modelled. Tickers are returned in column order, and the F-Score rows in ticker order. MomentumScreen starts from the fetched frame, so an exception escaping `fetch_prices` (see Momentum.FetchPrices) is not carried through it.
- AiPdfParser.AiFindFinancialSections: the decoded reply maps section names to an integer page or null only. A reply whose page values are strings, floats or booleans, which Python accepts and judges by truthiness, cannot be represented.
- `lower`, `\d` and `\b` are modelled over ASCII only, so Unicode case mapping and Unicode digits are out. `strip` and `\s` use Python's full set of whitespace characters.
- PdfTextParser.ParseNumber: `float` is modelled for signed decimals with an optional exponent only, without `inf`, `nan` or `_` digit separators, which Python also accepts. Nor does it strip whitespace, so `"(5\t)"`, which Python reads as -5.0 after the bracket rewrite, gives None here.
- PdfTextParser.MergedValues: the regex value parsers `_parse_income_statement`, `_parse_balance_sheet` and `_parse_cash_flow_statement` are a parameter. The merge order and the key provenance are modelled.
- `get_financial_summary` and the module-level `parse_saab_annual_report*` drivers are not modelled. They only print and combine the modelled steps.
- `_extract_pdf_url_from_html`, the download in `_download_annual_report` after the URL lookup, `extract_pages_to_pdf`, `extract_text_from_pages` and the prompt builders are not modelled. They are file, network or free-text work.
- In the screener package's fetcher, the HTML scraping behind each source (`_extract_financial_data_from_html`, the StockAnalysis, company-website and MFN fetchers) is not modelled. Each source's outcome is abstract: it raised, returned None, or returned a dictionary.
- The Yahoo Finance path of `fscore.py` enters as an abstract outcome.
- Models.ToFinancialData: `FinancialData(**d)` is modelled as a check of keys and value types. Python's dataclass does not check value types, so a non-numeric amount, or a provenance value that is neither null nor a string, which Python would store, is refused here with TypeError.
- `fscore.py` imports `financial_models`, `financial_fetcher` and `financial_parser` (lines 33-35), which are not part of this model. They are taken to be `data-fetcher/models.py` (`Models`), `data-fetcher/fetcher.py` (`HardcodedFetcher`) and `src/screener/analysis/parser.py` (`Parser`).
- `src/screener/data/fetcher.py` imports `tests.test_data` and `.models` (lines 27 and 535), which are not part of this model. `data-fetcher/test_data.py` stands in for the first. For the second the model uses the 21-field record of `data-fetcher/ai_pdf_parser.py` (lines 25-61), whose three provenance fields the fetcher fills (lines 371-373, 569-571); `data-fetcher/models.py` has only the 18 amounts.
- `fscore_calculator` (imported by `src/screener/core/momentum.py`) is not part of this model. `score_company` is a parameter that returns a score or fails.
- Command-line entry points (`cli/`, `argparse` mains, `__main__.py`) and all printing are not modelled.
- Concurrency is not modelled: the source has none.
