// The older stand-alone F-Score calculator: ratios over max(denominator, 1),
// a nine-entry breakdown, and a weekly cache in front of two data paths.

module LegacyFScore {

  import opened Wrappers
  import opened Models
  import Parser
  import HardcodedFetcher
  import Text

  /** The single-year figures the old scorer works on. */
  datatype FScoreData = FScoreData(
    netIncome: real,
    operatingCashFlow: real,
    roa: real,
    grossMargin: real,
    assetTurnover: real,
    debtToEquity: real,
    currentRatio: real,
    sharesOutstanding: real,
    leverageRatio: real)

  /** The score dictionary: nine 0/1 entries, their total, the ticker and whether a previous year was used. */
  datatype Breakdown = Breakdown(
    roaPositive: nat,
    ocfPositive: nat,
    netIncomePositive: nat,
    ocfGreaterNi: nat,
    decreasingLeverage: nat,
    increasingCurrentRatio: nat,
    noShareDilution: nat,
    higherGrossMargin: nat,
    higherAssetTurnover: nat,
    totalFScore: nat,
    ticker: string,
    hasPreviousYear: bool)

  /** What calculate_f_score returns: a scored breakdown tagged with its data source, or an error dictionary. */
  datatype ScoreResult =
    | Computed(breakdown: Breakdown, dataSource: string)
    | Failed(error: string, ticker: string, failedSource: Option<string>)
  {
    function TotalFScore(): nat
    {
      if Computed? then breakdown.totalFScore else 0
    }
  }

  const CacheDays: real := 7.0

  /** Python's max(x, 1). */
  function MaxOne(x: real): (m: real)
    ensures m >= 1.0 && m >= x
    ensures m == x || m == 1.0
  {
    if x >= 1.0 then x else 1.0
  }

  /** Python's `1 if b else 0`. */
  function Bit(b: bool): (n: nat)
    ensures n <= 1
    ensures n == 1 <==> b
  {
    if b then 1 else 0
  }

  // ---------------------------------------------------------------------
  // convert_financial_data_to_fscore_data

  /** Total equity as the old scorer derives it. */
  function TotalEquity(fd: FinancialData): real
  {
    fd.totalAssetsCur - fd.longTermDebtCur - fd.currentLiabilitiesCur
  }

  /** Current-year figures and ratios; every ratio is the numerator over max(denominator, 1). */
  function ConvertFinancialData(fd: FinancialData): (s: FScoreData)
    ensures s.netIncome == fd.netIncomeCur && s.operatingCashFlow == fd.cfoCur
    ensures s.sharesOutstanding == fd.sharesCur
    ensures s.roa * MaxOne(fd.totalAssetsCur) == fd.netIncomeCur
    ensures s.grossMargin * MaxOne(fd.revenueCur) == fd.revenueCur - fd.cogsCur
    ensures s.assetTurnover * MaxOne(fd.totalAssetsCur) == fd.revenueCur
    ensures s.debtToEquity * MaxOne(TotalEquity(fd)) == fd.longTermDebtCur
    ensures s.currentRatio * MaxOne(fd.currentLiabilitiesCur) == fd.currentAssetsCur
    ensures s.leverageRatio * MaxOne(fd.totalAssetsCur) == fd.longTermDebtCur
  {
    var totalAssets := fd.totalAssetsCur;
    FScoreData(
      netIncome := fd.netIncomeCur,
      operatingCashFlow := fd.cfoCur,
      roa := fd.netIncomeCur / MaxOne(totalAssets),
      grossMargin := (fd.revenueCur - fd.cogsCur) / MaxOne(fd.revenueCur),
      assetTurnover := fd.revenueCur / MaxOne(totalAssets),
      debtToEquity := fd.longTermDebtCur / MaxOne(TotalEquity(fd)),
      currentRatio := fd.currentAssetsCur / MaxOne(fd.currentLiabilitiesCur),
      sharesOutstanding := fd.sharesCur,
      leverageRatio := fd.longTermDebtCur / MaxOne(totalAssets))
  }

  /** Only current-year fields enter the conversion. */
  lemma ConvertIgnoresPreviousYear(fd: FinancialData, other: FinancialData)
    requires fd.revenueCur == other.revenueCur && fd.netIncomeCur == other.netIncomeCur && fd.cfoCur == other.cfoCur
    requires fd.totalAssetsCur == other.totalAssetsCur && fd.longTermDebtCur == other.longTermDebtCur
    requires fd.currentAssetsCur == other.currentAssetsCur
    requires fd.currentLiabilitiesCur == other.currentLiabilitiesCur
    requires fd.cogsCur == other.cogsCur && fd.sharesCur == other.sharesCur
    ensures ConvertFinancialData(fd) == ConvertFinancialData(other)
  {
  }

  /** Where the denominators are at least 1 the old ratios coincide with the parser's safe_div ratios. */
  lemma RatiosAgreeWithParser(fd: FinancialData)
    ensures fd.totalAssetsCur >= 1.0 ==> ConvertFinancialData(fd).roa == Parser.RoaCur(fd)
    ensures fd.totalAssetsCur >= 1.0 ==> ConvertFinancialData(fd).assetTurnover == Parser.TurnoverCur(fd)
    ensures fd.totalAssetsCur >= 1.0 ==> ConvertFinancialData(fd).leverageRatio == Parser.DebtRatioCur(fd)
    ensures fd.revenueCur >= 1.0 ==> ConvertFinancialData(fd).grossMargin == Parser.GrossMarginCur(fd)
    ensures fd.currentLiabilitiesCur >= 1.0 ==> ConvertFinancialData(fd).currentRatio == Parser.CurrentRatioCur(fd)
  {
  }

  /** Below 1 the denominator is replaced by 1, so the ratio is the numerator itself. */
  lemma SmallDenominatorIsOne(fd: FinancialData)
    requires fd.totalAssetsCur < 1.0
    ensures ConvertFinancialData(fd).roa == fd.netIncomeCur
    ensures ConvertFinancialData(fd).assetTurnover == fd.revenueCur
    ensures ConvertFinancialData(fd).leverageRatio == fd.longTermDebtCur
  {
  }

  // ---------------------------------------------------------------------
  // calculate_piotroski_f_score

  /** Sum of the nine 0/1 entries. */
  function EntrySum(b: Breakdown): nat
  {
    b.roaPositive + b.ocfPositive + b.netIncomePositive + b.ocfGreaterNi
    + b.decreasingLeverage + b.increasingCurrentRatio + b.noShareDilution
    + b.higherGrossMargin + b.higherAssetTurnover
  }

  predicate ComparativesZero(b: Breakdown)
  {
    b.decreasingLeverage == 0 && b.increasingCurrentRatio == 0 && b.noShareDilution == 0
    && b.higherGrossMargin == 0 && b.higherAssetTurnover == 0
  }

  predicate EntriesAreBits(b: Breakdown)
  {
    b.roaPositive <= 1 && b.ocfPositive <= 1 && b.netIncomePositive <= 1 && b.ocfGreaterNi <= 1
    && b.decreasingLeverage <= 1 && b.increasingCurrentRatio <= 1 && b.noShareDilution <= 1
    && b.higherGrossMargin <= 1 && b.higherAssetTurnover <= 1
  }

  /** Nine 0/1 entries add up to at most 9. */
  lemma BitsSumAtMostNine(b: Breakdown)
    requires EntriesAreBits(b)
    ensures EntrySum(b) <= 9
  {
  }

  /** The breakdown the old scorer produces; comparative entries need a previous year. */
  function PiotroskiBreakdown(data: FScoreData, prev: Option<FScoreData>): (b: Breakdown)
    ensures EntriesAreBits(b) && b.totalFScore == EntrySum(b) && b.totalFScore <= 9
    ensures b.hasPreviousYear <==> prev.Some?
    ensures prev.None? ==> ComparativesZero(b) && b.totalFScore <= 4
    ensures b.ticker == "unknown"
  {
    var entries := Breakdown(
      Bit(data.roa > 0.0), Bit(data.operatingCashFlow > 0.0),
      Bit(data.netIncome > 0.0), Bit(data.operatingCashFlow > data.netIncome),
      if prev.Some? then Bit(data.debtToEquity < prev.value.debtToEquity) else 0,
      if prev.Some? then Bit(data.currentRatio > prev.value.currentRatio) else 0,
      if prev.Some? then Bit(data.sharesOutstanding <= prev.value.sharesOutstanding) else 0,
      if prev.Some? then Bit(data.grossMargin > prev.value.grossMargin) else 0,
      if prev.Some? then Bit(data.assetTurnover > prev.value.assetTurnover) else 0,
      0, "unknown", prev.Some?);
    BitsSumAtMostNine(entries);
    entries.(totalFScore := EntrySum(entries))
  }

  /** What each entry means: a strict comparison, except share dilution, which allows equality. */
  lemma EntryMeanings(data: FScoreData, prev: Option<FScoreData>)
    ensures var b := PiotroskiBreakdown(data, prev);
      && (b.roaPositive == 1 <==> data.roa > 0.0)
      && (b.ocfPositive == 1 <==> data.operatingCashFlow > 0.0)
      && (b.netIncomePositive == 1 <==> data.netIncome > 0.0)
      && (b.ocfGreaterNi == 1 <==> data.operatingCashFlow > data.netIncome)
    ensures prev.Some? ==> var b, p := PiotroskiBreakdown(data, prev), prev.value;
      && (b.decreasingLeverage == 1 <==> data.debtToEquity < p.debtToEquity)
      && (b.increasingCurrentRatio == 1 <==> data.currentRatio > p.currentRatio)
      && (b.noShareDilution == 1 <==> data.sharesOutstanding <= p.sharesOutstanding)
      && (b.higherGrossMargin == 1 <==> data.grossMargin > p.grossMargin)
      && (b.higherAssetTurnover == 1 <==> data.assetTurnover > p.assetTurnover)
  {
  }

  /** Two breakdowns whose totals are their entry sums are equal once their entries are. */
  lemma SameEntriesSameBreakdown(b1: Breakdown, b2: Breakdown)
    requires b1.totalFScore == EntrySum(b1) && b2.totalFScore == EntrySum(b2)
    requires b1.(totalFScore := 0) == b2.(totalFScore := 0)
    ensures b1 == b2
  {
    assert EntrySum(b1) == EntrySum(b1.(totalFScore := 0)) == EntrySum(b2.(totalFScore := 0)) == EntrySum(b2);
  }

  /** calculate_piotroski_f_score: fills the breakdown test by test and accumulates the score. */
  method CalculatePiotroskiFScore(data: FScoreData, prev: Option<FScoreData>) returns (b: Breakdown)
    ensures b == PiotroskiBreakdown(data, prev)
  {
    var score := 0;
    var roaPositive := Bit(data.roa > 0.0);
    score := score + roaPositive;
    var ocfPositive := Bit(data.operatingCashFlow > 0.0);
    score := score + ocfPositive;
    var netIncomePositive := Bit(data.netIncome > 0.0);
    score := score + netIncomePositive;
    var ocfGreaterNi := Bit(data.operatingCashFlow > data.netIncome);
    score := score + ocfGreaterNi;

    var decreasingLeverage, increasingCurrentRatio, noShareDilution := 0, 0, 0;
    if prev.Some? {
      decreasingLeverage := Bit(data.debtToEquity < prev.value.debtToEquity);
      increasingCurrentRatio := Bit(data.currentRatio > prev.value.currentRatio);
      noShareDilution := Bit(data.sharesOutstanding <= prev.value.sharesOutstanding);
      score := score + decreasingLeverage;
      score := score + increasingCurrentRatio;
      score := score + noShareDilution;
    }

    var higherGrossMargin, higherAssetTurnover := 0, 0;
    if prev.Some? {
      higherGrossMargin := Bit(data.grossMargin > prev.value.grossMargin);
      higherAssetTurnover := Bit(data.assetTurnover > prev.value.assetTurnover);
      score := score + higherGrossMargin;
      score := score + higherAssetTurnover;
    }

    b := Breakdown(roaPositive, ocfPositive, netIncomePositive, ocfGreaterNi,
      decreasingLeverage, increasingCurrentRatio, noShareDilution,
      higherGrossMargin, higherAssetTurnover, score, "unknown", prev.Some?);
    assert b.totalFScore == EntrySum(b);
    assert b.(totalFScore := 0) == PiotroskiBreakdown(data, prev).(totalFScore := 0);
    SameEntriesSameBreakdown(b, PiotroskiBreakdown(data, prev));
  }

  /** Comparing a year with itself: every comparative test is strict except share dilution, which uses <=. */
  lemma SameYearComparatives(data: FScoreData)
    ensures var b := PiotroskiBreakdown(data, Some(data));
      b.decreasingLeverage == 0 && b.increasingCurrentRatio == 0
      && b.higherGrossMargin == 0 && b.higherAssetTurnover == 0 && b.noShareDilution == 1
  {
  }

  /** Adding a previous year never lowers the score: the four profitability entries do not depend on it. */
  lemma PreviousYearOnlyAdds(data: FScoreData, prev: FScoreData)
    ensures PiotroskiBreakdown(data, None).totalFScore <= PiotroskiBreakdown(data, Some(prev)).totalFScore
    ensures PiotroskiBreakdown(data, Some(prev)).totalFScore <= PiotroskiBreakdown(data, None).totalFScore + 5
  {
  }

  // ---------------------------------------------------------------------
  // The cache and calculate_f_score

  /** A cache file: its age in days and the stored f_score_result, None when the JSON cannot be read. */
  datatype CacheEntry = CacheEntry(ageDays: real, result: Option<ScoreResult>)

  /** What the Yahoo fallback block ends in: an exception, no data, or single-year figures. */
  datatype YahooOutcome = YahooRaised | YahooNone | YahooData(data: FScoreData)

  /** The ticker with '.' then '-' turned into '_'. */
  function CacheStem(ticker: string): (r: string)
    ensures |r| == |ticker|
    ensures forall i :: 0 <= i < |r| ==> r[i] != '.' && r[i] != '-'
    ensures forall i :: 0 <= i < |r| ==> (r[i] == '_' <==> ticker[i] in {'.', '-', '_'})
    ensures forall i :: 0 <= i < |r| && ticker[i] !in {'.', '-'} ==> r[i] == ticker[i]
  {
    seq(|ticker|, i requires 0 <= i < |ticker| => if ticker[i] == '.' || ticker[i] == '-' then '_' else ticker[i])
  }

  /** get_fscore_cache_file: the path inside the cache directory. */
  function FScoreCacheFile(ticker: string): (path: string)
    ensures Text.StartsWith(path, "cache/fscore_") && Text.EndsWith(path, ".json")
    ensures |path| == |ticker| + 18
    ensures path[13..|path| - 5] == CacheStem(ticker)
  {
    var path := "cache/fscore_" + CacheStem(ticker) + ".json";
    assert path[..13] == "cache/fscore_";
    assert path[|path| - 5..] == ".json";
    assert path[13..|path| - 5] == CacheStem(ticker);
    path
  }

  /** Tickers that differ only in '.' versus '-' share a cache file. */
  lemma DotAndDashShareCacheFile()
    ensures FScoreCacheFile("ABC-B.ST") == FScoreCacheFile("ABC.B-ST")
  {
  }

  /** Different cache files mean different tickers, and equal stems mean equal paths. */
  lemma CacheFileDeterminesStem(t1: string, t2: string)
    ensures FScoreCacheFile(t1) == FScoreCacheFile(t2) <==> CacheStem(t1) == CacheStem(t2)
  {
    if FScoreCacheFile(t1) == FScoreCacheFile(t2) {
      var n := |"cache/fscore_"|;
      assert CacheStem(t1) == FScoreCacheFile(t1)[n..|FScoreCacheFile(t1)| - 5];
      assert CacheStem(t2) == FScoreCacheFile(t2)[n..|FScoreCacheFile(t2)| - 5];
    }
  }

  /** is_fscore_cache_fresh: the file exists and is younger than seven days. */
  predicate IsFScoreCacheFresh(files: map<string, CacheEntry>, path: string)
  {
    path in files && files[path].ageDays < CacheDays
  }

  /** load_fscore_from_cache: the stored result of a fresh, readable file. */
  function LoadFScoreFromCache(files: map<string, CacheEntry>, ticker: string): (r: Option<ScoreResult>)
    ensures r.Some? <==> IsFScoreCacheFresh(files, FScoreCacheFile(ticker)) && files[FScoreCacheFile(ticker)].result.Some?
    ensures r.Some? ==> files[FScoreCacheFile(ticker)].result == r
  {
    var path := FScoreCacheFile(ticker);
    if IsFScoreCacheFresh(files, path) then files[path].result else None
  }

  /** The ticker to company-name table of calculate_f_score. */
  const TickerToCompany: map<string, string> := map[
    "BIOA-B.ST" := "BioArctic",
    "SAAB-B.ST" := "SAAB",
    "INT.ST" := "Intellego Technologies",
    "VOLV-B.ST" := "Volvo",
    "EVO.ST" := "Evolution Gaming",
    "ERIC-B.ST" := "Ericsson",
    "NDA-SE.ST" := "Nordea",
    "TELIA.ST" := "Telia",
    "SAND.ST" := "Sandvik",
    "ASSA-B.ST" := "Assa Abloy",
    "ATCO-A.ST" := "Atlas Copco A",
    "ATCO-B.ST" := "Atlas Copco B"]

  /** ticker_to_company.get(ticker, ticker). */
  function CompanyFor(ticker: string): (name: string)
    ensures ticker in TickerToCompany ==> name == TickerToCompany[ticker]
    ensures ticker !in TickerToCompany ==> name == ticker
  {
    if ticker in TickerToCompany then TickerToCompany[ticker] else ticker
  }

  /** The enhanced path applies when the company's record loads and its current revenue is positive. */
  predicate TakesEnhancedPath(ticker: string)
  {
    var fetched := HardcodedFetcher.FetchFinancials(CompanyFor(ticker));
    fetched.Ok? && fetched.value.revenueCur > 0.0
  }

  /** The result computed when the cache is not used: enhanced data, else the Yahoo block. */
  function FreshResult(ticker: string, yahoo: YahooOutcome): (r: ScoreResult)
    ensures r.TotalFScore() <= 9
    ensures TakesEnhancedPath(ticker) ==>
      (r.Computed? && r.dataSource == "enhanced_data_fetcher" && !r.breakdown.hasPreviousYear && r.TotalFScore() <= 4)
    ensures !TakesEnhancedPath(ticker) ==> match yahoo
      case YahooRaised => r == Failed("all_sources_failed", ticker, None)
      case YahooNone => r == Failed("insufficient_data", ticker, Some("yahoo_fallback"))
      case YahooData(d) => r.Computed? && r.dataSource == "yahoo_finance" && r.TotalFScore() <= 4
    ensures r.Computed? ==> r.breakdown.ticker == ticker
  {
    if TakesEnhancedPath(ticker) then
      var current := ConvertFinancialData(HardcodedFetcher.FetchFinancials(CompanyFor(ticker)).value);
      Computed(PiotroskiBreakdown(current, None).(ticker := ticker), "enhanced_data_fetcher")
    else
      match yahoo
      case YahooRaised => Failed("all_sources_failed", ticker, None)
      case YahooNone => Failed("insufficient_data", ticker, Some("yahoo_fallback"))
      case YahooData(d) => Computed(PiotroskiBreakdown(d, None).(ticker := ticker), "yahoo_finance")
  }

  /** Every result except the all-sources-failed one is written to the cache. */
  predicate IsCached(r: ScoreResult)
  {
    !(r.Failed? && r.error == "all_sources_failed")
  }

  /** The three hardcoded tickers take the enhanced path and score at most 4, since no previous year is passed. */
  lemma HardcodedTickersUseEnhancedPath(yahoo: YahooOutcome)
    ensures TakesEnhancedPath("INT.ST") && TakesEnhancedPath("SAAB-B.ST") && TakesEnhancedPath("BIOA-B.ST")
    ensures FreshResult("INT.ST", yahoo).TotalFScore() <= 4
  {
    assert CompanyFor("INT.ST") == "Intellego Technologies";
    assert CompanyFor("SAAB-B.ST") == "SAAB";
    assert CompanyFor("BIOA-B.ST") == "BioArctic";
    HardcodedFetcher.IntellegoResolves();
    HardcodedFetcher.SaabResolves();
    HardcodedFetcher.BioArcticResolves();
  }

  /** A ticker outside the table is looked up under its own name; the hardcoded fetcher refuses it, so the Yahoo block decides. */
  lemma UnknownTickerFallsBackToYahoo()
    ensures !TakesEnhancedPath("UNKNOWN")
    ensures FreshResult("UNKNOWN", YahooNone) == Failed("insufficient_data", "UNKNOWN", Some("yahoo_fallback"))
  {
    assert "UNKNOWN" !in TickerToCompany;
    Text.LowerStripTo("UNKNOWN", "unknown");
  }

  /** On the enhanced path the fresh result is the cached breakdown of the converted record. */
  lemma EnhancedResult(ticker: string, yahoo: YahooOutcome, fd: FinancialData)
    requires HardcodedFetcher.FetchFinancials(CompanyFor(ticker)) == Ok(fd) && fd.revenueCur > 0.0
    ensures FreshResult(ticker, yahoo) == Computed(PiotroskiBreakdown(ConvertFinancialData(fd), None).(ticker := ticker), "enhanced_data_fetcher")
    ensures IsCached(FreshResult(ticker, yahoo))
  {
  }

  /** Off the enhanced path the Yahoo block alone decides the fresh result; only a raised exception goes uncached. */
  lemma YahooResult(ticker: string, yahoo: YahooOutcome)
    requires !TakesEnhancedPath(ticker)
    ensures yahoo.YahooRaised? ==>
      FreshResult(ticker, yahoo) == Failed("all_sources_failed", ticker, None) && !IsCached(FreshResult(ticker, yahoo))
    ensures yahoo.YahooNone? ==>
      FreshResult(ticker, yahoo) == Failed("insufficient_data", ticker, Some("yahoo_fallback"))
      && IsCached(FreshResult(ticker, yahoo))
    ensures yahoo.YahooData? ==>
      FreshResult(ticker, yahoo) == Computed(PiotroskiBreakdown(yahoo.data, None).(ticker := ticker), "yahoo_finance")
      && IsCached(FreshResult(ticker, yahoo))
  {
  }

  /** The F-Score cache directory, as a map from file path to cache file. */
  class FScoreCache {
    var files: map<string, CacheEntry>

    constructor()
      ensures files == map[]
    {
      files := map[];
    }

    /** calculate_f_score: a fresh cached result if allowed, otherwise the enhanced path, then the Yahoo block. */
    method CalculateFScore(ticker: string, useCache: bool, yahoo: YahooOutcome) returns (r: ScoreResult)
      modifies this
      ensures useCache && LoadFScoreFromCache(old(files), ticker).Some? ==>
        r == LoadFScoreFromCache(old(files), ticker).value && files == old(files)
      ensures !(useCache && LoadFScoreFromCache(old(files), ticker).Some?) ==>
        r == FreshResult(ticker, yahoo)
        && files == if IsCached(r) then old(files)[FScoreCacheFile(ticker) := CacheEntry(0.0, Some(r))] else old(files)
    {
      if useCache {
        var cached := LoadFScoreFromCache(files, ticker);
        if cached.Some? {
          return cached.value;
        }
      }
      var companyName := CompanyFor(ticker);
      var financialData := HardcodedFetcher.FetchFinancials(companyName);
      if financialData.Ok? && financialData.value.revenueCur > 0.0 {
        var current := ConvertFinancialData(financialData.value);
        var breakdown := CalculatePiotroskiFScore(current, None);
        r := Computed(breakdown.(ticker := ticker), "enhanced_data_fetcher");
        files := files[FScoreCacheFile(ticker) := CacheEntry(0.0, Some(r))];
        EnhancedResult(ticker, yahoo, financialData.value);
        return;
      }
      YahooResult(ticker, yahoo);
      match yahoo {
        case YahooRaised =>
          r := Failed("all_sources_failed", ticker, None);
        case YahooNone =>
          r := Failed("insufficient_data", ticker, Some("yahoo_fallback"));
          files := files[FScoreCacheFile(ticker) := CacheEntry(0.0, Some(r))];
        case YahooData(d) =>
          var breakdown := CalculatePiotroskiFScore(d, None);
          r := Computed(breakdown.(ticker := ticker), "yahoo_finance");
          files := files[FScoreCacheFile(ticker) := CacheEntry(0.0, Some(r))];
      }
    }
  }

  /** A result just written is served from the cache on the next call. */
  lemma FreshWriteIsServed(files: map<string, CacheEntry>, ticker: string, r: ScoreResult)
    ensures LoadFScoreFromCache(files[FScoreCacheFile(ticker) := CacheEntry(0.0, Some(r))], ticker) == Some(r)
  {
  }

  /** A cache file seven or more days old is ignored. */
  lemma StaleEntryIgnored(files: map<string, CacheEntry>, ticker: string)
    requires FScoreCacheFile(ticker) in files && files[FScoreCacheFile(ticker)].ageDays >= 7.0
    ensures LoadFScoreFromCache(files, ticker).None?
  {
  }
}
