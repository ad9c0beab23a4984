// The fundamentals resolver of the screener package: a 30-day cache in front
// of an ordered cascade of four sources, a quality gate on the first source,
// default-filling of the accepted dictionary, and a hardcoded fallback table.
// Each source is an abstract outcome: it raised, returned None, or returned a
// dictionary.

module Scraper {

  import opened Wrappers
  import opened Text
  import opened Models
  import TestData
  import opened AiPdfParser

  datatype Source = StockAnalysis | AiPdfParser | CompanyWebsite | MfnStorage

  /** The fixed order in which sources are tried. */
  const Sources: seq<Source> := [StockAnalysis, AiPdfParser, CompanyWebsite, MfnStorage]

  /** What calling one source's scraper produced. */
  datatype SourceOutcome = Raised | ReturnedNone | ReturnedDict(d: Record)

  // ---------------------------------------------------------------------
  // _is_data_sufficient

  const CriticalFields: seq<string> := [
    "revenue_cur", "revenue_prev",
    "net_income_cur", "net_income_prev",
    "cfo_cur", "cfo_prev",
    "total_assets_cur", "total_assets_prev"]

  /** `value == 0 or value is None`. */
  predicate IsMissing(v: Value)
  {
    v == Num(0.0) || v == Null
  }

  /** How many of fields are absent, zero or None in d. */
  function MissingCount(d: Record, fields: seq<string>): (n: nat)
    ensures n <= |fields|
    ensures n == 0 <==> forall i :: 0 <= i < |fields| ==> !IsMissing(Get(d, fields[i], Num(0.0)))
  {
    if fields == [] then 0
    else
      var last := fields[|fields| - 1];
      MissingCount(d, fields[..|fields| - 1]) + (if IsMissing(Get(d, last, Num(0.0))) then 1 else 0)
  }

  /** The gate's outcome: it accepts, rejects, or raises on a comparison with a non-number. */
  datatype Verdict = Accept | Reject | Raise

  /**
   * The gate: more than two missing critical fields reject; then three
   * plausibility checks on the current year, whose ordered comparisons
   * raise when they meet a value that is not a number.
   */
  function GateVerdict(d: Record): (v: Verdict)
    ensures MissingCount(d, CriticalFields) > 2 ==> v == Reject
    ensures v == Raise ==>
      (!Get(d, "revenue_cur", Num(0.0)).Num? || !Get(d, "net_income_cur", Num(0.0)).Num?
       || !Get(d, "total_assets_cur", Num(0.0)).Num?)
  {
    var rev := Get(d, "revenue_cur", Num(0.0));
    var ni := Get(d, "net_income_cur", Num(0.0));
    var ta := Get(d, "total_assets_cur", Num(0.0));
    var cfo := Get(d, "cfo_cur", Num(0.0));
    if MissingCount(d, CriticalFields) > 2 then Reject
    else if !rev.Num? then Raise
    else if 0.0 < rev.n < 10.0 && !ni.Num? then Raise
    else if 0.0 < rev.n < 10.0 && Abs(ni.n) > rev.n * 2.0 then Reject
    else if rev.n > 0.0 && !ta.Num? then Raise
    else if rev.n > 0.0 && ta.n > 0.0 && ta.n < rev.n * 0.1 then Reject
    else if rev.n > 1000.0 && cfo == Num(0.0) then Reject
    else Accept
  }

  function Abs(x: real): real
  {
    if x < 0.0 then -x else x
  }

  /** _is_data_sufficient: counts the missing critical fields, then applies the three checks. */
  method IsDataSufficient(data: Record) returns (v: Verdict)
    ensures v == GateVerdict(data)
  {
    var missingCritical := 0;
    var i := 0;
    while i < |CriticalFields|
      invariant 0 <= i <= |CriticalFields|
      invariant missingCritical == MissingCount(data, CriticalFields[..i])
    {
      assert CriticalFields[..i + 1][..i] == CriticalFields[..i];
      var value := Get(data, CriticalFields[i], Num(0.0));
      if value == Num(0.0) || value == Null {
        missingCritical := missingCritical + 1;
      }
      i := i + 1;
    }
    assert CriticalFields[..i] == CriticalFields;
    if missingCritical > 2 {
      return Reject;
    }
    var revenueCur := Get(data, "revenue_cur", Num(0.0));
    var netIncomeCur := Get(data, "net_income_cur", Num(0.0));
    var totalAssetsCur := Get(data, "total_assets_cur", Num(0.0));
    var cfoCur := Get(data, "cfo_cur", Num(0.0));
    if !revenueCur.Num? {
      return Raise;
    }
    if revenueCur.n > 0.0 && revenueCur.n < 10.0 {
      if !netIncomeCur.Num? {
        return Raise;
      }
      if Abs(netIncomeCur.n) > revenueCur.n * 2.0 {
        return Reject;
      }
    }
    if revenueCur.n > 0.0 {
      if !totalAssetsCur.Num? {
        return Raise;
      }
      if totalAssetsCur.n > 0.0 && totalAssetsCur.n < revenueCur.n * 0.1 {
        return Reject;
      }
    }
    if revenueCur.n > 1000.0 && cfoCur == Num(0.0) {
      return Reject;
    }
    return Accept;
  }

  /** Accepted data has at least six of the eight critical fields present and non-zero, and a numeric revenue. */
  lemma AcceptedDataIsMostlyPresent(d: Record)
    requires GateVerdict(d) == Accept
    ensures MissingCount(d, CriticalFields) <= 2
    ensures Get(d, "revenue_cur", Num(0.0)).Num?
  {
  }

  /** Complete, plausible current-year figures pass the gate. */
  lemma PlausibleDataPasses(d: Record, rev: real, ni: real, ta: real, cfo: real)
    requires forall i :: 0 <= i < |CriticalFields| ==>
      (CriticalFields[i] in d && d[CriticalFields[i]].Num? && d[CriticalFields[i]].n > 0.0)
    requires Get(d, "revenue_cur", Null) == Num(rev) && Get(d, "net_income_cur", Null) == Num(ni)
    requires Get(d, "total_assets_cur", Null) == Num(ta) && Get(d, "cfo_cur", Null) == Num(cfo)
    requires ta >= rev * 0.1 && (rev < 10.0 ==> Abs(ni) <= rev * 2.0)
    ensures GateVerdict(d) == Accept
  {
    assert CriticalFields[0] == "revenue_cur" && CriticalFields[4] == "cfo_cur";
    assert MissingCount(d, CriticalFields) == 0;
  }

  /** A large company whose cash flow is exactly 0 is rejected, even when nothing else is missing. */
  lemma ZeroCashFlowRejected(d: Record)
    requires MissingCount(d, CriticalFields) <= 2
    requires Get(d, "revenue_cur", Num(0.0)) == Num(2000.0) && Get(d, "cfo_cur", Num(0.0)) == Num(0.0)
    requires Get(d, "total_assets_cur", Num(0.0)) == Num(1000.0)
    ensures GateVerdict(d) == Reject
  {
  }

  // ---------------------------------------------------------------------
  // _fill_missing_data

  /** The keys _fill_missing_data adds, in order; revenue and net income are not among them. */
  const FillKeys: seq<string> := [
    "total_assets_cur", "total_assets_prev",
    "cfo_cur", "cfo_prev",
    "long_term_debt_cur", "long_term_debt_prev",
    "current_assets_cur", "current_assets_prev",
    "current_liabilities_cur", "current_liabilities_prev",
    "cogs_cur", "cogs_prev",
    "shares_cur", "shares_prev"]

  /** The default for one of FillKeys: one million shares, 0.0 for everything else. */
  function FillDefault(k: string): Value
  {
    if k == "shares_cur" || k == "shares_prev" then Num(1000000.0) else Num(0.0)
  }

  /** The dictionary after defaulting: present keys untouched, absent FillKeys set to their default. */
  function Filled(d: Record): (f: Record)
    ensures f.Keys == d.Keys + set i | 0 <= i < |FillKeys| :: FillKeys[i]
    ensures forall k | k in d :: f[k] == d[k]
    ensures forall i | 0 <= i < |FillKeys| && FillKeys[i] !in d :: f[FillKeys[i]] == FillDefault(FillKeys[i])
  {
    map k | k in d.Keys + (set i | 0 <= i < |FillKeys| :: FillKeys[i]) :: if k in d then d[k] else FillDefault(k)
  }

  /**
   * The state of _fill_missing_data before default key i: the keys are the
   * scraped ones and the first i default keys, the scraped values are
   * kept, and every added key holds its default.
   */
  predicate FilledUpTo(data: Record, filled: Record, i: nat)
    requires i <= |FillKeys|
  {
    && filled.Keys == data.Keys + (set j | 0 <= j < i :: FillKeys[j])
    && (forall k | k in data :: filled[k] == data[k])
    && (forall k | k in filled && k !in data :: filled[k] == FillDefault(k))
  }

  /** One iteration: an absent key i gets its default, a present one is left alone. */
  lemma FillStep(data: Record, filled: Record, i: nat)
    requires i < |FillKeys| && FilledUpTo(data, filled, i)
    ensures FilledUpTo(data,
      if FillKeys[i] in filled then filled else filled[FillKeys[i] := FillDefault(FillKeys[i])], i + 1)
  {
    FillKeySetStep(i);
  }

  /** The first i + 1 default keys are the first i and key i. */
  lemma FillKeySetStep(i: nat)
    requires i < |FillKeys|
    ensures (set j | 0 <= j < i + 1 :: FillKeys[j]) == (set j | 0 <= j < i :: FillKeys[j]) + {FillKeys[i]}
  {
  }

  /** What the loop holds at its end is exactly the defaulted dictionary. */
  lemma FilledByLoop(data: Record, filled: Record)
    requires FilledUpTo(data, filled, |FillKeys|)
    ensures filled == Filled(data)
  {
  }

  /** _fill_missing_data: adds each absent default key in turn. */
  method FillMissingData(data: Record) returns (filled: Record)
    ensures filled == Filled(data)
  {
    filled := data;
    var i: nat := 0;
    while i < |FillKeys|
      invariant i <= |FillKeys|
      invariant FilledUpTo(data, filled, i)
    {
      var key := FillKeys[i];
      FillStep(data, filled, i);
      if key !in filled {
        filled := filled[key := FillDefault(key)];
      }
      i := i + 1;
    }
    FilledByLoop(data, filled);
  }

  /** Defaulting twice changes nothing more. */
  lemma FillIdempotent(d: Record)
    ensures Filled(Filled(d)) == Filled(d)
  {
  }

  /** Revenue and net income are never defaulted, so a dictionary without them still cannot become a record. */
  lemma NoRevenueNoRecord(d: Record)
    requires "revenue_prev" !in d
    ensures ToFinancialData(Filled(d)).Err?
  {
    assert NumericFields[1] == "revenue_prev";
    assert "revenue_prev" !in Filled(d);
    assert NumField(Filled(d), NumericFields[1]).None?;
  }

  // ---------------------------------------------------------------------
  // _try_ai_pdf_parser

  /**
   * _try_ai_pdf_parser's mapping of an extraction result (None when the
   * parser raised or found nothing) to a full 21-key dictionary.  An empty
   * extraction, or a fiscal_years value that is not a dictionary (the
   * attribute error is caught), gives None.
   */
  function AiAdapter(company: string, extracted: Option<Record>, now: string): (r: Option<Record>)
    ensures r.Some? <==> extracted.Some? && extracted.value != map[] && ReportDateOf(extracted.value).Some?
    ensures r.Some? ==> r.value.Keys == set k | k in AllFields
    ensures r.Some? ==> forall i :: 0 <= i < |NumericFields| ==>
      NumericFields[i] in r.value && r.value[NumericFields[i]] == Get(extracted.value, NumericFields[i], AiDefault(NumericFields[i]))
    ensures r.Some? ==>
      ("source_url" in r.value && "report_date" in r.value && "data_collected_at" in r.value
       && r.value["source_url"] == Str("AI-parsed annual report for " + company)
       && r.value["report_date"] == ReportDateOf(extracted.value).value && r.value["data_collected_at"] == Str(now))
  {
    if extracted.None? || extracted.value == map[] then None
    else
      var e := extracted.value;
      match ReportDateOf(e)
      case None => None
      case Some(date) =>
        ConvertedFields(e, Str("AI-parsed annual report for " + company), date, now);
        Some(Converted(e, Str("AI-parsed annual report for " + company), date, now))
  }

  /** A dictionary from the AI adapter always carries revenue_cur and needs no defaults. */
  lemma AiDictionaryNeedsNoDefaults(company: string, extracted: Option<Record>, now: string)
    requires AiAdapter(company, extracted, now).Some?
    ensures "revenue_cur" in AiAdapter(company, extracted, now).value
    ensures Filled(AiAdapter(company, extracted, now).value) == AiAdapter(company, extracted, now).value
  {
    FieldRecordNeedsNoDefaults(AiAdapter(company, extracted, now).value);
  }

  /** A dictionary holding every field of the record carries revenue_cur, and defaulting leaves it alone. */
  lemma FieldRecordNeedsNoDefaults(r: Record)
    requires r.Keys == set k | k in AllFields
    ensures "revenue_cur" in r && Filled(r) == r
  {
    assert "revenue_cur" == AllFields[0];
    FillKeysAreFields();
    assert Filled(r).Keys == r.Keys;
  }

  /** Every default key is a field of the record: the amounts other than revenue and net income. */
  lemma FillKeysAreFields()
    ensures forall i :: 0 <= i < |FillKeys| ==> FillKeys[i] in AllFields
  {
    assert FillKeys == NumericFields[6..8] + NumericFields[4..6] + NumericFields[8..];
    assert AllFields[..|NumericFields|] == NumericFields;
  }

  // ---------------------------------------------------------------------
  // _get_hardcoded_data

  /** The ticker table of the hardcoded fallback. */
  const HardcodedTickers: map<string, string> := map[
    "BIOA-B.ST" := "BioArctic",
    "SAAB-B.ST" := "SAAB",
    "INT.ST" := "Intellego Technologies"]

  function HardcodedName(company: string): (name: string)
    ensures company in HardcodedTickers ==> name == HardcodedTickers[company]
    ensures company !in HardcodedTickers ==> name == company
  {
    if company in HardcodedTickers then HardcodedTickers[company] else company
  }

  /**
   * _get_hardcoded_data: the ground-truth record for the company (or its
   * ticker) with the provenance of the hardcoded table; otherwise a
   * ValueError that quotes the name as given.
   */
  function HardcodedData(company: string, now: string): (r: Result<FinancialData, Error>)
    ensures r.Ok? <==> TestData.GetTestFinancialData(HardcodedName(company)).Ok?
    ensures r.Ok? ==> Amounts(r.value) == Amounts(TestData.GetTestFinancialData(HardcodedName(company)).value)
    ensures r.Ok? ==>
      (r.value.sourceUrl == Some("hardcoded_test_data") && r.value.reportDate == Some("2024")
       && r.value.dataCollectedAt == Some(now))
    ensures r.Err? ==> r.error == ValueError(TestData.UnsupportedMessage(company))
  {
    match TestData.GetTestFinancialData(HardcodedName(company))
    case Ok(fd) =>
      Ok(fd.(sourceUrl := Some("hardcoded_test_data"), reportDate := Some("2024"), dataCollectedAt := Some(now)))
    case Err(_) => Err(ValueError(TestData.UnsupportedMessage(company)))
  }

  /** INT.ST resolves to the Intellego record ... */
  lemma IntellegoTickerResolves(now: string)
    ensures HardcodedData("INT.ST", now).Ok? && Amounts(HardcodedData("INT.ST", now).value) == Amounts(TestData.Intellego)
  {
    assert HardcodedName("INT.ST") == "Intellego Technologies";
    TestData.IntellegoKey();
  }

  /** ... SAAB-B.ST to the SAAB record ... */
  lemma SaabTickerResolves(now: string)
    ensures HardcodedData("SAAB-B.ST", now).Ok? && Amounts(HardcodedData("SAAB-B.ST", now).value) == Amounts(TestData.Saab)
  {
    assert HardcodedName("SAAB-B.ST") == "SAAB";
    TestData.SaabKey();
  }

  /** ... and BIOA-B.ST to the BioArctic record. */
  lemma BioArcticTickerResolves(now: string)
    ensures HardcodedData("BIOA-B.ST", now).Ok?
      && Amounts(HardcodedData("BIOA-B.ST", now).value) == Amounts(TestData.BioArctic)
  {
    assert HardcodedName("BIOA-B.ST") == "BioArctic";
    TestData.BioArcticKey();
  }

  // ---------------------------------------------------------------------
  // The cache and the cascade

  /** A cached file: its age in days and its content, None when the JSON cannot be read. */
  datatype CacheFile = CacheFile(ageDays: real, content: Option<Record>)

  const CacheDays: real := 30.0

  /** The normalised company key: lower-cased, then stripped. */
  function CompanyKey(company: string): string
  {
    LowerStrip(company)
  }

  const CacheDir: string := "cache/financial_data/"
  const CacheSuffix: string := "_financial_data.json"

  /**
   * _get_cache_file: a file of the cache directory with the fixed suffix,
   * named by the lower-cased company with spaces as underscores.
   */
  function CacheFileName(company: string): (path: string)
    ensures StartsWith(path, CacheDir) && EndsWith(path, CacheSuffix)
    ensures |path| == |CacheDir| + |company| + |CacheSuffix|
    ensures path[|CacheDir|..|path| - |CacheSuffix|] == ReplaceChar(Lower(company), ' ', '_')
  {
    var stem := ReplaceChar(Lower(company), ' ', '_');
    ReplaceCharLength(Lower(company), ' ', '_');
    var path := CacheDir + stem + CacheSuffix;
    assert path[..|CacheDir|] == CacheDir;
    assert path[|path| - |CacheSuffix|..] == CacheSuffix;
    assert path[|CacheDir|..|path| - |CacheSuffix|] == stem;
    path
  }

  /** Two companies share a cache file exactly when their lower-cased, underscored names agree. */
  lemma CacheFileNameDeterminesStem(c1: string, c2: string)
    ensures CacheFileName(c1) == CacheFileName(c2) <==> ReplaceChar(Lower(c1), ' ', '_') == ReplaceChar(Lower(c2), ' ', '_')
  {
  }

  /** A space and an underscore give the same file, as do upper and lower case. */
  lemma SpaceAndUnderscoreShareCacheFile()
    ensures CacheFileName("Saab AB") == CacheFileName("saab_ab")
  {
  }

  /** _is_cache_fresh: the file exists and is younger than 30 days. */
  predicate IsCacheFresh(cache: map<string, CacheFile>, path: string)
  {
    path in cache && cache[path].ageDays < CacheDays
  }

  /** The cache answers: caching allowed, a fresh file, readable, and a non-empty dictionary. */
  predicate CacheHit(cache: map<string, CacheFile>, company: string, useCache: bool)
  {
    var path := CacheFileName(CompanyKey(company));
    useCache && IsCacheFresh(cache, path) && cache[path].content.Some? && cache[path].content.value != map[]
  }

  /** A source's result is taken: a dictionary with revenue_cur, and for StockAnalysis one the gate accepts. */
  predicate Accepted(s: Source, o: SourceOutcome)
  {
    o.ReturnedDict? && "revenue_cur" in o.d && (s == StockAnalysis ==> GateVerdict(o.d) == Accept)
  }

  /** The index of the first accepted source at or after i. */
  function FirstAccepted(outcome: Source -> SourceOutcome, i: nat): (r: Option<nat>)
    requires i <= |Sources|
    ensures r.Some? ==>
      (i <= r.value < |Sources| && Accepted(Sources[r.value], outcome(Sources[r.value]))
       && forall j :: i <= j < r.value ==> !Accepted(Sources[j], outcome(Sources[j])))
    ensures r.None? ==> forall j :: i <= j < |Sources| ==> !Accepted(Sources[j], outcome(Sources[j]))
    decreases |Sources| - i
  {
    if i == |Sources| then None
    else if Accepted(Sources[i], outcome(Sources[i])) then Some(i)
    else FirstAccepted(outcome, i + 1)
  }

  /** An accepted source is the first accepted one from its own position on. */
  lemma SourceTaken(outcome: Source -> SourceOutcome, k: nat)
    requires k < |Sources| && Accepted(Sources[k], outcome(Sources[k]))
    ensures FirstAccepted(outcome, k) == Some(k)
  {
  }

  /** A source that is not accepted passes the search on to the next one. */
  lemma SourcePassed(outcome: Source -> SourceOutcome, k: nat)
    requires k < |Sources| && !Accepted(Sources[k], outcome(Sources[k]))
    ensures FirstAccepted(outcome, k) == FirstAccepted(outcome, k + 1)
  {
  }

  /**
   * The source loop of fetch_financials: each source in order until one
   * returns a dictionary with revenue_cur that, for StockAnalysis, the gate
   * accepts.  tried lists the sources called.
   */
  method TrySources(outcome: Source -> SourceOutcome) returns (scrapedData: Option<Record>, tried: seq<Source>)
    ensures match FirstAccepted(outcome, 0)
      case None => scrapedData == None && tried == Sources
      case Some(i) => scrapedData == Some(outcome(Sources[i]).d) && tried == Sources[..i + 1]
  {
    scrapedData := None;
    tried := [];
    var k: nat := 0;
    while k < |Sources| && scrapedData.None?
      invariant k <= |Sources|
      invariant tried == Sources[..k]
      invariant scrapedData.None? ==> FirstAccepted(outcome, 0) == FirstAccepted(outcome, k)
      invariant scrapedData.Some? ==>
        (1 <= k && FirstAccepted(outcome, 0) == Some(k - 1) && scrapedData.value == outcome(Sources[k - 1]).d)
    {
      var source := Sources[k];
      var data := outcome(source);
      tried := tried + [source];
      if data.ReturnedDict? && "revenue_cur" in data.d {
        var sufficient := true;
        if source == StockAnalysis {
          var verdict := IsDataSufficient(data.d);
          sufficient := verdict == Accept;
        }
        if sufficient {
          SourceTaken(outcome, k);
          scrapedData := Some(data.d);
        } else {
          SourcePassed(outcome, k);
        }
      } else {
        SourcePassed(outcome, k);
      }
      k := k + 1;
    }
    if scrapedData.None? {
      assert tried == Sources;
    }
  }

  /** The resolver, holding the cache directory as a map from file path to file. */
  class FinancialDataScraper {
    var cache: map<string, CacheFile>

    constructor()
      ensures cache == map[]
    {
      cache := map[];
    }

    /**
     * fetch_financials: the cached record when the cache answers; otherwise
     * the sources in order until one is accepted, whose defaulted dictionary
     * is cached and turned into a record; otherwise the hardcoded table.
     * tried lists the sources called, in order.
     */
    method FetchFinancials(company: string, useCache: bool, outcome: Source -> SourceOutcome, now: string)
      returns (r: Result<FinancialData, Error>, tried: seq<Source>)
      modifies this
      ensures CacheHit(old(cache), company, useCache) ==>
        r == ToFinancialData(old(cache)[CacheFileName(CompanyKey(company))].content.value)
        && tried == [] && cache == old(cache)
      ensures !CacheHit(old(cache), company, useCache) ==>
        match FirstAccepted(outcome, 0)
        case None =>
          r == HardcodedData(company, now) && tried == Sources && cache == old(cache)
        case Some(i) =>
          tried == Sources[..i + 1]
          && r == ToFinancialData(Filled(outcome(Sources[i]).d))
          && cache == old(cache)[CacheFileName(CompanyKey(company)) := CacheFile(0.0, Some(Filled(outcome(Sources[i]).d)))]
    {
      var companyKey := CompanyKey(company);
      var cacheFile := CacheFileName(companyKey);
      if useCache && IsCacheFresh(cache, cacheFile) {
        var cachedData := cache[cacheFile].content;
        if cachedData.Some? && cachedData.value != map[] {
          return ToFinancialData(cachedData.value), [];
        }
      }
      var scrapedData;
      scrapedData, tried := TrySources(outcome);
      if scrapedData.None? {
        r := HardcodedData(company, now);
        return;
      }
      var filled := FillMissingData(scrapedData.value);
      cache := cache[cacheFile := CacheFile(0.0, Some(filled))];
      r := ToFinancialData(filled);
    }
  }

  /** Spellings that differ only in case and surrounding blanks share one cache file. */
  lemma CacheKeyIsNormalised(company: string)
    ensures CacheFileName(CompanyKey(company)) == CacheFileName(CompanyKey(LowerStrip(company)))
  {
    LowerStripIdempotent(company);
  }

  /** A dictionary just cached is served by the next call with caching on, and nothing is fetched. */
  lemma CachedResultIsServed(cache: map<string, CacheFile>, company: string, d: Record)
    requires "revenue_cur" in d
    ensures var path := CacheFileName(CompanyKey(company));
      CacheHit(cache[path := CacheFile(0.0, Some(Filled(d)))], company, true)
  {
    assert "revenue_cur" in Filled(d);
  }

  /** A file 30 or more days old, or caching switched off, never answers. */
  lemma StaleOrDisabledCacheIgnored(cache: map<string, CacheFile>, company: string)
    ensures !CacheHit(cache, company, false)
    ensures CacheFileName(CompanyKey(company)) in cache && cache[CacheFileName(CompanyKey(company))].ageDays >= 30.0
      ==> !CacheHit(cache, company, true)
  {
  }

  /** The gate applies to StockAnalysis only: any other source with revenue_cur is accepted as it is. */
  lemma GateOnlyForStockAnalysis(s: Source, d: Record)
    requires s != StockAnalysis && "revenue_cur" in d
    ensures Accepted(s, ReturnedDict(d))
  {
  }

  /** Raising or returning None never ends the cascade. */
  lemma FailuresAreSkipped(s: Source)
    ensures !Accepted(s, Raised) && !Accepted(s, ReturnedNone)
  {
  }
}
