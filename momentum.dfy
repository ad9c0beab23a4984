// The packaged momentum screener (src/screener/core/momentum.py): a cache
// freshness check that does look at the file's age, the cache gate of
// fetch_prices, the identity trading-day function, and the steps of
// momentum_screen around the returns: the empty-frame exit, the fixed
// 63/126/252-row lookbacks and the F-Score column.  The ticker dedupe and
// suffix filter are the same code as in screener.py and are modelled once,
// by Screener.ScreenTickers.

module Momentum {

  import opened Wrappers
  import Screener

  /** 24 * 3600. */
  const SecondsPerDay: real := 86400.0

  /**
   * is_cache_fresh: a missing file is stale; otherwise the file is fresh
   * when its age in days, (now - mtime) / 86400, is below max_age_days.
   */
  function IsCacheFresh(fileExists: bool, mtime: real, now: real, maxAgeDays: int): (isFresh: bool)
    ensures !fileExists ==> !isFresh
    ensures fileExists ==> (isFresh <==> now - mtime < maxAgeDays as real * SecondsPerDay)
  {
    fileExists && (now - mtime) / SecondsPerDay < maxAgeDays as real
  }

  /** Every file this check calls fresh, the screener.py check calls fresh too. */
  lemma FreshIsLegacyFresh(fileExists: bool, mtime: real, now: real, maxAgeDays: int)
    requires IsCacheFresh(fileExists, mtime, now, maxAgeDays)
    ensures Screener.IsCacheFresh(fileExists, (now - mtime) / SecondsPerDay, maxAgeDays)
  {
  }

  /** A longer age limit keeps every fresh file fresh. */
  lemma FreshUnderLongerLimit(fileExists: bool, mtime: real, now: real, m1: int, m2: int)
    requires m1 <= m2 && IsCacheFresh(fileExists, mtime, now, m1)
    ensures IsCacheFresh(fileExists, mtime, now, m2)
  {
  }

  /** A file written later than a fresh one is fresh too. */
  lemma NewerFileFresh(fileExists: bool, mtime1: real, mtime2: real, now: real, maxAgeDays: int)
    requires mtime1 <= mtime2 && IsCacheFresh(fileExists, mtime1, now, maxAgeDays)
    ensures IsCacheFresh(fileExists, mtime2, now, maxAgeDays)
  {
  }

  /** With a zero or negative limit nothing is fresh unless its time stamp lies in the future. */
  lemma NoLimitNothingFresh(fileExists: bool, mtime: real, now: real, maxAgeDays: int)
    requires maxAgeDays <= 0 && mtime <= now
    ensures !IsCacheFresh(fileExists, mtime, now, maxAgeDays)
  {
  }

  /**
   * What pd.read_csv did with the cache file: a frame, an exception that
   * load_from_cache catches (FileNotFoundError, EmptyDataError), or any
   * other exception (a ParserError, a UnicodeDecodeError), which escapes.
   */
  datatype CacheRead<F> = Frame(frame: F) | Caught | Raised

  /** The exception that escapes load_from_cache, and with it fetch_prices. */
  datatype ReadError = ReadRaised

  /**
   * load_from_cache: None for a stale file or a caught read error, the
   * frame for a good read, and the escaping exception otherwise.
   */
  function LoadFromCache<F>(isFresh: bool, read: CacheRead<F>): (r: Result<Option<F>, ReadError>)
    ensures !isFresh ==> r == Ok(None)
    ensures isFresh && read.Frame? ==> r == Ok(Some(read.frame))
    ensures isFresh && read.Caught? ==> r == Ok(None)
    ensures r.Err? <==> isFresh && read.Raised?
  {
    if !isFresh then Ok(None)
    else
      match read
      case Frame(f) => Ok(Some(f))
      case Caught => Ok(None)
      case Raised => Err(ReadRaised)
  }

  /**
   * fetch_prices: the cache is consulted only with use_cache and without
   * force_refresh; a frame it yields is returned, an exception it lets
   * escape escapes fetch_prices too, anything else downloads, and every
   * download is written back when use_cache is set.
   */
  function FetchPrices<F>(useCache: bool, forceRefresh: bool, isFresh: bool, read: CacheRead<F>, download: F)
    : (r: Result<Screener.Fetch<F>, ReadError>)
    ensures r.Err? <==> useCache && !forceRefresh && isFresh && read.Raised?
    ensures r.Ok? ==> (r.value.readCache <==> useCache && !forceRefresh && isFresh)
    ensures r.Ok? ==> (r.value.downloaded <==> !(useCache && !forceRefresh && isFresh && read.Frame?))
    ensures r.Ok? && r.value.downloaded ==> r.value.frame == download
    ensures r.Ok? && !r.value.downloaded ==> r.value.frame == read.frame
    ensures r.Ok? ==> (r.value.wroteCache <==> useCache && r.value.downloaded)
  {
    if useCache && !forceRefresh then
      match LoadFromCache(isFresh, read)
      case Err(e) => Err(e)
      case Ok(cached) =>
        if cached.Some? then Ok(Screener.Fetch(cached.value, isFresh, false, false))
        else Ok(Screener.Fetch(download, isFresh, true, true))
    else Ok(Screener.Fetch(download, false, true, useCache))
  }

  /** The read as screener.py's load_from_cache sees it: every exception is caught. */
  function CaughtByLegacy<F>(read: CacheRead<F>): (r: Option<F>)
    ensures r.Some? <==> read.Frame?
    ensures r.Some? ==> r.value == read.frame
  {
    if read.Frame? then Some(read.frame) else None
  }

  /**
   * Given the same verdict on freshness, and a read that does not raise an
   * exception load_from_cache lets escape, this fetch_prices and the one in
   * screener.py read, download, write and return exactly the same.
   */
  lemma FetchAgreesWithLegacy<F>(useCache: bool, forceRefresh: bool, isFresh: bool, read: CacheRead<F>, download: F)
    requires !read.Raised?
    ensures FetchPrices(useCache, forceRefresh, isFresh, read, download)
         == Ok(Screener.FetchPrices(useCache, forceRefresh, isFresh, CaughtByLegacy(read), download))
  {
  }

  /**
   * On a fresh cache file whose read raises something other than
   * FileNotFoundError or EmptyDataError, this fetch_prices fails while the
   * screener.py one catches the exception, downloads and writes the cache.
   */
  lemma FetchDisagreesOnRaisedRead<F>(isFresh: bool, download: F)
    requires isFresh
    ensures FetchPrices(true, false, isFresh, Raised, download).Err?
    ensures Screener.FetchPrices(true, false, isFresh, CaughtByLegacy(Raised), download)
         == Screener.Fetch(download, true, true, true)
  {
  }

  /** find_closest_trading_day: the date itself, so a weekend date is returned as a weekend date. */
  function FindClosestTradingDay(d: Screener.Ordinal): (r: Screener.Ordinal)
    ensures r == d
    ensures Screener.Weekday(d) >= 5 ==> Screener.Weekday(r) >= 5
  {
    d
  }

  /**
   * This version and the screener.py one agree exactly on the weekdays; on
   * a weekend date screener.py moves back while this one stays put.
   */
  lemma TradingDayAgreesOnWeekdays(d: Screener.Ordinal)
    ensures FindClosestTradingDay(d) == Screener.FindClosestTradingDay(d) <==> Screener.Weekday(d) < 5
    ensures Screener.Weekday(d) >= 5 ==> Screener.FindClosestTradingDay(d) < FindClosestTradingDay(d)
  {
  }

  /** The lookbacks px.iloc[-63], px.iloc[-126], px.iloc[-252]. */
  const Lookbacks: seq<nat> := [63, 126, 252]

  /** The fixed lookbacks are the screener.py horizons of 3, 6 and 12 months at 21 trading days. */
  lemma LookbacksAreLegacyHorizons()
    ensures |Lookbacks| == |Screener.DefaultMonths|
    ensures forall i :: 0 <= i < |Lookbacks| ==> Lookbacks[i] == Screener.MonthsToDays(Screener.DefaultMonths[i], Screener.DefaultDaysPerMonth)
  {
    Screener.DefaultHorizons();
  }

  /**
   * What momentum_screen returns, short of the return arithmetic and the
   * ranking.  rankedColumns are the price columns that get returns; when
   * scored is present, the returned frame's rows are those scored rows,
   * which the min_f_score filter may have cut down.
   */
  datatype Outcome =
    | Empty                                                   // pd.DataFrame()
    | IndexError                                              // px.iloc[-k] with fewer than k rows
    | Ranked(rankedColumns: seq<string>, scored: Option<seq<Screener.Row>>)

  /**
   * momentum_screen after the prices are fetched and cleaned: an empty
   * frame (no ticker columns or no rows) gives an empty result; fewer than
   * 252 rows make the 12-month lookback raise; otherwise every ticker is
   * ranked, and when include_f_score is set and the F-Score module imports,
   * the F-Scores are added and the min_f_score filter applied.
   */
  method MomentumScreen(columns: seq<string>, days: nat, includeFScore: bool, calculatorImports: bool,
                        fscore: string -> Option<int>, minFScore: Option<int>)
    returns (r: Outcome)
    ensures r == Empty <==> columns == [] || days == 0
    ensures columns != [] && 0 < days < Lookbacks[2] ==> r == IndexError
    ensures columns != [] && days >= Lookbacks[2] ==> r.Ranked? && r.rankedColumns == columns
    ensures r.Ranked? ==> (r.scored.Some? <==> includeFScore && calculatorImports)
    ensures r.Ranked? && r.scored.Some? ==>
      r.scored.value == Screener.MinFScoreFilter(Screener.ScoredRows(columns, fscore), minFScore)
  {
    if columns == [] || days == 0 {
      return Empty;
    }
    if days < Lookbacks[0] {
      return IndexError;
    }
    if days < Lookbacks[1] {
      return IndexError;
    }
    if days < Lookbacks[2] {
      return IndexError;
    }
    var scored := Screener.ScreenFScores(columns, includeFScore, calculatorImports, fscore, minFScore);
    r := Ranked(columns, scored);
  }
}
