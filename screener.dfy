// The small helpers of the price screener (screener.py): moving a weekend
// date back to Friday, months to trading days, the cache gate, the string
// behind the cache key, the ticker dedupe and suffix filter, the F-Score
// column with its minimum filter, the row limit, and the cleaning of
// tickers read from a CSV file.  Prices, the clock and the filesystem are
// parameters; the pandas arithmetic is not modelled.

module Screener {

  import opened Wrappers
  import opened Text

  // ---------------------------------------------------------------------
  // Dates

  /** A date as its proleptic Gregorian ordinal: 1 is 0001-01-01, a Monday. */
  type Ordinal = n: int | n >= 1 witness 1

  /** date.weekday(): Monday is 0, Sunday is 6. */
  function Weekday(d: Ordinal): (w: nat)
    ensures w < 7
  {
    (d + 6) % 7
  }

  /** find_closest_trading_day: Saturday goes back one day and Sunday two, both to Friday; weekdays stay. */
  function FindClosestTradingDay(d: Ordinal): (r: Ordinal)
    ensures Weekday(d) < 5 ==> r == d
    ensures Weekday(d) == 5 ==> r == d - 1
    ensures Weekday(d) == 6 ==> r == d - 2
    ensures Weekday(r) < 5
    ensures Weekday(d) >= 5 ==> Weekday(r) == 4
  {
    var w := Weekday(d);
    if w == 5 then d - 1 else if w == 6 then d - 2 else d
  }

  /** The trading day is never later than the date and at most two days earlier. */
  lemma TradingDayNearBefore(d: Ordinal)
    ensures d - 2 <= FindClosestTradingDay(d) <= d
  {
  }

  /** A date that is already a weekday is its own trading day, and only then. */
  lemma TradingDayFixedIffWeekday(d: Ordinal)
    ensures FindClosestTradingDay(d) == d <==> Weekday(d) < 5
  {
  }

  /** Moving to the trading day twice is moving once. */
  lemma TradingDayIdempotent(d: Ordinal)
    ensures FindClosestTradingDay(FindClosestTradingDay(d)) == FindClosestTradingDay(d)
  {
  }

  /** _months_to_days: m months of days_per_month trading days. */
  function MonthsToDays(m: int, daysPerMonth: int): (days: int)
    ensures daysPerMonth != 0 ==> days / daysPerMonth == m && days % daysPerMonth == 0
  {
    if daysPerMonth != 0 then WholeMonths(m, daysPerMonth); m * daysPerMonth else 0
  }

  /** m whole months of c days divide back into m months with nothing left over. */
  lemma WholeMonths(m: int, c: int)
    requires c != 0
    ensures (m * c) / c == m && (m * c) % c == 0
  {
    var q, r := (m * c) / c, (m * c) % c;
    var k := m - q;
    assert k * c == m * c - q * c;
    NonzeroProduct(k, c);
  }

  /** A non-zero multiple of c is at least |c| away from 0. */
  lemma NonzeroProduct(k: int, c: int)
    requires c != 0
    ensures k == 0 || k * c <= -(if c < 0 then -c else c) || k * c >= (if c < 0 then -c else c)
  {
    if k != 0 {
      var a, b := if k < 0 then -k else k, if c < 0 then -c else c;
      ProductAtLeast(a, b);
      assert a * b == if (k < 0) == (c < 0) then k * c else -(k * c);
    }
  }

  lemma ProductAtLeast(a: int, b: int)
    requires a >= 1 && b >= 1
    ensures a * b >= b
  {
    assert a * b == (a - 1) * b + b;
  }

  /** ScreenConfig's months and trading_days_per_month defaults. */
  const DefaultMonths: seq<int> := [3, 6, 12]
  const DefaultDaysPerMonth: int := 21

  /** The default horizons are 63, 126 and 252 trading days. */
  lemma DefaultHorizons()
    ensures MonthsToDays(DefaultMonths[0], DefaultDaysPerMonth) == 63
    ensures MonthsToDays(DefaultMonths[1], DefaultDaysPerMonth) == 126
    ensures MonthsToDays(DefaultMonths[2], DefaultDaysPerMonth) == 252
  {
  }

  /** More months never give fewer days. */
  lemma MonthsToDaysMonotone(m1: int, m2: int, daysPerMonth: nat)
    requires m1 <= m2
    ensures MonthsToDays(m1, daysPerMonth) <= MonthsToDays(m2, daysPerMonth)
  {
  }

  // ---------------------------------------------------------------------
  // The price cache

  /**
   * is_cache_fresh: a missing file is stale, and an existing file is fresh
   * whether it is younger than max_age_days or not.
   */
  function IsCacheFresh(fileExists: bool, ageDays: real, maxAgeDays: int): (isFresh: bool)
    ensures !fileExists ==> !isFresh
    ensures fileExists && ageDays < maxAgeDays as real ==> isFresh
    ensures fileExists && ageDays >= maxAgeDays as real ==> isFresh
  {
    fileExists
  }

  /** The age limit makes no difference. */
  lemma FreshnessIgnoresAge(fileExists: bool, age1: real, age2: real, max1: int, max2: int)
    ensures IsCacheFresh(fileExists, age1, max1) == IsCacheFresh(fileExists, age2, max2)
  {
  }

  /**
   * load_from_cache: with force_refresh nothing is read; otherwise a fresh
   * file is read, and a read that fails (None here) gives None.
   */
  function LoadFromCache<F>(forceRefresh: bool, fileExists: bool, read: Option<F>): (r: Option<F>)
    ensures forceRefresh ==> r == None
    ensures !forceRefresh && fileExists ==> r == read
    ensures !fileExists ==> r == None
  {
    if !forceRefresh && IsCacheFresh(fileExists, 0.0, 1) then read else None
  }

  /** What fetch_prices did: the frame it returned, whether it read the cache, downloaded, and wrote the cache. */
  datatype Fetch<F> = Fetch(frame: F, readCache: bool, downloaded: bool, wroteCache: bool)

  /**
   * fetch_prices: with use_cache, a cache hit is returned at once;
   * otherwise the prices are downloaded and, with use_cache, written.
   */
  function FetchPrices<F>(useCache: bool, forceRefresh: bool, fileExists: bool, read: Option<F>, download: F)
    : (r: Fetch<F>)
    ensures r.readCache <==> useCache && !forceRefresh && fileExists
    ensures r.downloaded <==> !(useCache && LoadFromCache(forceRefresh, fileExists, read).Some?)
    ensures r.downloaded ==> r.frame == download
    ensures !r.downloaded ==> r.frame == read.value
    ensures r.wroteCache <==> useCache && r.downloaded
  {
    var readCache := useCache && !forceRefresh && fileExists;
    if useCache && LoadFromCache(forceRefresh, fileExists, read).Some? then
      Fetch(LoadFromCache(forceRefresh, fileExists, read).value, readCache, false, false)
    else Fetch(download, readCache, true, useCache)
  }

  /** force_refresh always downloads, and writes the cache exactly when use_cache is set. */
  lemma ForceRefreshDownloads<F>(useCache: bool, fileExists: bool, read: Option<F>, download: F)
    ensures FetchPrices(useCache, true, fileExists, read, download).downloaded
    ensures FetchPrices(useCache, true, fileExists, read, download).wroteCache == useCache
  {
  }

  // ---------------------------------------------------------------------
  // generate_cache_key: the string that is hashed

  /** Python's string order: code point by code point, a prefix first. */
  predicate LexLe(a: string, b: string)
  {
    if a == [] then true
    else if b == [] then false
    else if a[0] != b[0] then a[0] < b[0]
    else LexLe(a[1..], b[1..])
  }

  lemma {:induction false} LexLeTotal(a: string, b: string)
    ensures LexLe(a, b) || LexLe(b, a)
  {
    if a != [] && b != [] && a[0] == b[0] {
      LexLeTotal(a[1..], b[1..]);
    }
  }

  lemma {:induction false} LexLeAntisymmetric(a: string, b: string)
    requires LexLe(a, b) && LexLe(b, a)
    ensures a == b
  {
    if a != [] && b != [] {
      LexLeAntisymmetric(a[1..], b[1..]);
      assert a == [a[0]] + a[1..] && b == [b[0]] + b[1..];
    }
  }

  lemma {:induction false} LexLeTransitive(a: string, b: string, c: string)
    requires LexLe(a, b) && LexLe(b, c)
    ensures LexLe(a, c)
  {
    if a != [] && b != [] && c != [] && a[0] == b[0] && b[0] == c[0] {
      LexLeTransitive(a[1..], b[1..], c[1..]);
    }
  }

  lemma LexLeReflexive(a: string)
    ensures LexLe(a, a)
  {
    LexLeTotal(a, a);
  }

  predicate Sorted(s: seq<string>)
  {
    forall i, j :: 0 <= i < j < |s| ==> LexLe(s[i], s[j])
  }

  /** Insert x before the first element it does not follow. */
  function Insert(s: seq<string>, x: string): (r: seq<string>)
    ensures multiset(r) == multiset(s) + multiset{x}
  {
    if s == [] then [x]
    else if LexLe(x, s[0]) then [x] + s
    else
      assert s == [s[0]] + s[1..];
      [s[0]] + Insert(s[1..], x)
  }

  lemma {:induction false} InsertSorted(s: seq<string>, x: string)
    requires Sorted(s)
    ensures Sorted(Insert(s, x))
  {
    if s != [] {
      if LexLe(x, s[0]) {
        forall j | 1 <= j < |s| + 1
          ensures LexLe(x, ([x] + s)[j])
        {
          if j > 1 {
            LexLeTransitive(x, s[0], s[j - 1]);
          }
        }
      } else {
        LexLeTotal(x, s[0]);
        var rest := Insert(s[1..], x);
        InsertSorted(s[1..], x);
        forall y | y in rest
          ensures LexLe(s[0], y)
        {
          assert y in multiset(rest);
          if y != x {
            assert y in multiset(s[1..]);
            var k :| 0 <= k < |s[1..]| && s[1..][k] == y;
            assert s[k + 1] == y;
          }
        }
        forall i, j | 0 <= i < j < |rest| + 1
          ensures LexLe(([s[0]] + rest)[i], ([s[0]] + rest)[j])
        {
          if i == 0 {
            assert rest[j - 1] in rest;
          }
        }
      }
    }
  }

  /** sorted(): insertion of each element in turn. */
  function SortStrings(s: seq<string>): (r: seq<string>)
    ensures multiset(r) == multiset(s)
  {
    if s == [] then []
    else
      assert s == s[..|s| - 1] + [s[|s| - 1]];
      Insert(SortStrings(s[..|s| - 1]), s[|s| - 1])
  }

  lemma {:induction false} SortStringsSorted(s: seq<string>)
    ensures Sorted(SortStrings(s))
  {
    if s != [] {
      SortStringsSorted(s[..|s| - 1]);
      InsertSorted(SortStrings(s[..|s| - 1]), s[|s| - 1]);
    }
  }

  lemma SortedHeadLeast(a: seq<string>, x: string)
    requires Sorted(a) && x in multiset(a)
    ensures LexLe(a[0], x)
  {
    var i :| 0 <= i < |a| && a[i] == x;
    if i == 0 {
      LexLeReflexive(x);
    }
  }

  lemma SortedTail(a: seq<string>)
    requires Sorted(a) && a != []
    ensures Sorted(a[1..])
    ensures multiset(a) == multiset{a[0]} + multiset(a[1..])
  {
    assert forall i, j :: 0 <= i < j < |a[1..]| ==> a[1..][i] == a[i + 1] && a[1..][j] == a[j + 1];
    assert a == [a[0]] + a[1..];
  }

  /** Two non-empty sorted lists with the same elements start alike and have tails with the same elements. */
  lemma SortedHeadsAgree(a: seq<string>, b: seq<string>)
    requires Sorted(a) && Sorted(b) && multiset(a) == multiset(b) && a != []
    ensures b != [] && a[0] == b[0]
    ensures multiset(a[1..]) == multiset(b[1..])
  {
    assert |b| == |multiset(b)| == |multiset(a)| == |a|;
    assert a[0] in multiset(a) && b[0] in multiset(b);
    SortedHeadLeast(b, a[0]);
    SortedHeadLeast(a, b[0]);
    LexLeAntisymmetric(a[0], b[0]);
    SortedTail(a);
    SortedTail(b);
    assert multiset(a[1..]) == multiset(a) - multiset{a[0]};
  }

  /** Two sorted lists with the same elements are the same list. */
  lemma {:induction false} SortedUnique(a: seq<string>, b: seq<string>)
    requires Sorted(a) && Sorted(b) && multiset(a) == multiset(b)
    ensures a == b
  {
    if a == [] {
      assert |b| == |multiset(b)| == 0;
    } else {
      SortedHeadsAgree(a, b);
      SortedTail(a);
      SortedTail(b);
      SortedUnique(a[1..], b[1..]);
      assert a == [a[0]] + a[1..] && b == [b[0]] + b[1..];
    }
  }

  /** The string generate_cache_key hashes: the sorted tickers joined by _, then the two dates. */
  function CacheKeyInput(tickers: seq<string>, startDate: string, endDate: string): (k: string)
    ensures EndsWith(k, "_" + startDate + "_" + endDate)
    ensures StartsWith(k, Join(SortStrings(tickers), "_"))
  {
    var joined := Join(SortStrings(tickers), "_");
    var dates := "_" + startDate + "_" + endDate;
    assert (joined + dates)[..|joined|] == joined && (joined + dates)[|joined|..] == dates;
    joined + dates
  }

  /** The hashed string, and so the key, does not depend on the order of the tickers. */
  lemma CacheKeyOrderFree(t1: seq<string>, t2: seq<string>, startDate: string, endDate: string)
    requires multiset(t1) == multiset(t2)
    ensures CacheKeyInput(t1, startDate, endDate) == CacheKeyInput(t2, startDate, endDate)
  {
    SortStringsSorted(t1);
    SortStringsSorted(t2);
    SortedUnique(SortStrings(t1), SortStrings(t2));
  }

  // ---------------------------------------------------------------------
  // momentum_screen: the ticker list

  predicate Distinct(s: seq<string>)
  {
    forall i, j :: 0 <= i < j < |s| ==> s[i] != s[j]
  }

  /** list(dict.fromkeys(tickers)): the first occurrence of each ticker, in order. */
  function Dedupe(s: seq<string>): (r: seq<string>)
    ensures Distinct(r)
    ensures forall t :: t in r <==> t in s
    ensures |r| <= |s|
  {
    if s == [] then []
    else
      var init := Dedupe(s[..|s| - 1]);
      assert forall t :: t in s <==> t in s[..|s| - 1] || t == s[|s| - 1];
      if s[|s| - 1] in s[..|s| - 1] then init else init + [s[|s| - 1]]
  }

  /** The index of the first occurrence of t in s. */
  function FirstIndex(s: seq<string>, t: string): (i: nat)
    requires t in s
    ensures i < |s| && s[i] == t && forall j :: 0 <= j < i ==> s[j] != t
  {
    if s[0] == t then 0 else 1 + FirstIndex(s[1..], t)
  }

  /** Deduplicated tickers keep the order of their first occurrences. */
  lemma {:induction false} DedupeKeepsFirstOrder(s: seq<string>)
    ensures forall i, j :: 0 <= i < j < |Dedupe(s)| ==> FirstIndex(s, Dedupe(s)[i]) < FirstIndex(s, Dedupe(s)[j])
  {
    if s != [] {
      var p := s[..|s| - 1];
      var init := Dedupe(p);
      DedupeKeepsFirstOrder(p);
      forall t | t in p
        ensures FirstIndex(s, t) == FirstIndex(p, t)
      {
        FirstIndexPrefix(s, p, t);
      }
      if s[|s| - 1] !in p {
        var last := s[|s| - 1];
        assert FirstIndex(s, last) == |s| - 1;
        forall i | 0 <= i < |init|
          ensures init[i] in p && FirstIndex(s, init[i]) < |s| - 1
        {
          assert init[i] in p;
        }
        var r := init + [last];
        forall i, j | 0 <= i < j < |r|
          ensures FirstIndex(s, r[i]) < FirstIndex(s, r[j])
        {
          assert r[i] == init[i];
          if j < |init| {
            assert r[j] == init[j];
            assert init[i] in p && init[j] in p;
          }
        }
      } else {
        forall i | 0 <= i < |init|
          ensures init[i] in p
        {
        }
      }
    }
  }

  lemma FirstIndexPrefix(s: seq<string>, p: seq<string>, t: string)
    requires |p| <= |s| && p == s[..|p|] && t in p
    ensures t in s && FirstIndex(s, t) == FirstIndex(p, t)
  {
    var i := FirstIndex(p, t);
    assert s[i] == t;
    var k := FirstIndex(s, t);
    assert k <= i;
    assert p[k] == s[k];
  }

  /** A list without repeats is its own dedupe. */
  lemma {:induction false} DedupeDistinct(s: seq<string>)
    requires Distinct(s)
    ensures Dedupe(s) == s
  {
    if s != [] {
      DedupeDistinct(s[..|s| - 1]);
      assert s == s[..|s| - 1] + [s[|s| - 1]];
    }
  }

  /** The Nordic suffixes ".ST", ".CO", ".HE", ".OL", ".IC", the default restriction. */
  const NordicSuffixes: seq<string> := [".ST", ".CO", ".HE", ".OL", ".IC"]

  predicate HasSuffix(t: string, suffixes: seq<string>)
  {
    exists k :: 0 <= k < |suffixes| && EndsWith(t, suffixes[k])
  }

  /** The suffix filter: only when restrict_suffixes is set and non-empty, keep the tickers ending in one of them. */
  function RestrictSuffixes(tickers: seq<string>, restrict: Option<seq<string>>): (r: seq<string>)
    ensures restrict.None? || restrict == Some([]) ==> r == tickers
    ensures restrict.Some? && restrict.value != [] ==>
      forall t :: t in r <==> t in tickers && HasSuffix(t, restrict.value)
    ensures |r| <= |tickers|
  {
    if restrict.None? || restrict.value == [] then tickers
    else KeepWithSuffix(tickers, restrict.value)
  }

  function KeepWithSuffix(tickers: seq<string>, suffixes: seq<string>): (r: seq<string>)
    ensures forall t :: t in r <==> t in tickers && HasSuffix(t, suffixes)
    ensures |r| <= |tickers|
  {
    if tickers == [] then []
    else
      var rest := KeepWithSuffix(tickers[1..], suffixes);
      assert forall t :: t in tickers <==> t == tickers[0] || t in tickers[1..];
      if HasSuffix(tickers[0], suffixes) then [tickers[0]] + rest else rest
  }

  /** A single ticker is kept exactly when it ends in a suffix. */
  lemma KeepWithSuffixSingle(t: string, suffixes: seq<string>)
    ensures HasSuffix(t, suffixes) ==> KeepWithSuffix([t], suffixes) == [t]
    ensures !HasSuffix(t, suffixes) ==> KeepWithSuffix([t], suffixes) == []
  {
    assert [t][1..] == [];
  }

  /**
   * The filter works list piece by list piece: it keeps order and copies,
   * so with KeepWithSuffixSingle it is the comprehension over the tickers.
   */
  lemma {:induction false} KeepWithSuffixConcat(a: seq<string>, b: seq<string>, suffixes: seq<string>)
    ensures KeepWithSuffix(a + b, suffixes) == KeepWithSuffix(a, suffixes) + KeepWithSuffix(b, suffixes)
  {
    if a == [] {
      assert a + b == b;
    } else {
      var ab := a + b;
      assert ab[0] == a[0] && ab[1..] == a[1..] + b;
      KeepWithSuffixConcat(a[1..], b, suffixes);
      var head := if HasSuffix(a[0], suffixes) then [a[0]] else [];
      assert KeepWithSuffix(ab, suffixes) == head + KeepWithSuffix(a[1..] + b, suffixes);
      assert KeepWithSuffix(a, suffixes) == head + KeepWithSuffix(a[1..], suffixes);
    }
  }

  /** The suffix restriction also keeps order and copies. */
  lemma RestrictSuffixesConcat(a: seq<string>, b: seq<string>, restrict: Option<seq<string>>)
    ensures RestrictSuffixes(a + b, restrict) == RestrictSuffixes(a, restrict) + RestrictSuffixes(b, restrict)
  {
    if restrict.Some? && restrict.value != [] {
      KeepWithSuffixConcat(a, b, restrict.value);
    }
  }

  /** Filtering a list without repeats leaves a list without repeats. */
  lemma {:induction false} KeepWithSuffixDistinct(tickers: seq<string>, suffixes: seq<string>)
    requires Distinct(tickers)
    ensures Distinct(KeepWithSuffix(tickers, suffixes))
  {
    if tickers != [] {
      KeepWithSuffixDistinct(tickers[1..], suffixes);
      assert tickers[0] !in tickers[1..];
    }
  }

  /** The tickers momentum_screen screens: deduplicated, then restricted; no ticker appears twice. */
  function ScreenTickers(tickers: seq<string>, restrict: Option<seq<string>>): (r: seq<string>)
    ensures forall t :: t in r <==> t in tickers && (restrict.None? || restrict.value == [] || HasSuffix(t, restrict.value))
  {
    RestrictSuffixes(Dedupe(tickers), restrict)
  }

  lemma ScreenTickersDistinct(tickers: seq<string>, restrict: Option<seq<string>>)
    ensures Distinct(ScreenTickers(tickers, restrict))
    ensures forall t :: t in ScreenTickers(tickers, restrict) ==> t in tickers
  {
    if restrict.Some? && restrict.value != [] {
      KeepWithSuffixDistinct(Dedupe(tickers), restrict.value);
    }
  }

  // ---------------------------------------------------------------------
  // momentum_screen: the F-Score column

  /** The F-Score recorded for one ticker: the computed total, or 0 when the computation raised (None). */
  function ScoreOrZero(outcome: Option<int>): int
  {
    match outcome
    case Some(v) => v
    case None => 0
  }

  /** A ticker's row: its symbol and its F-Score. */
  type Row = (string, int)

  /** The f_score column next to the tickers: the computed total, or 0 where it raised. */
  function ScoredRows(tickers: seq<string>, fscore: string -> Option<int>): (rows: seq<Row>)
    ensures |rows| == |tickers|
    ensures forall i :: 0 <= i < |rows| ==> rows[i] == (tickers[i], ScoreOrZero(fscore(tickers[i])))
  {
    if tickers == [] then [] else [(tickers[0], ScoreOrZero(fscore(tickers[0])))] + ScoredRows(tickers[1..], fscore)
  }

  /** The F-Score loop: one score per row, in row order. */
  method CollectFScores(tickers: seq<string>, fscore: string -> Option<int>) returns (scores: seq<int>)
    ensures |scores| == |tickers|
    ensures forall i :: 0 <= i < |tickers| ==> scores[i] == ScoreOrZero(fscore(tickers[i]))
  {
    scores := [];
    var i := 0;
    while i < |tickers|
      invariant 0 <= i <= |tickers|
      invariant |scores| == i
      invariant forall k :: 0 <= k < i ==> scores[k] == ScoreOrZero(fscore(tickers[k]))
    {
      var ticker := tickers[i];
      var result := fscore(ticker);
      if result.Some? {
        scores := scores + [result.value];
      } else {
        scores := scores + [0];
      }
      i := i + 1;
    }
  }

  /** df[df["f_score"] >= min_f_score] when a minimum is set; every row otherwise. */
  function MinFScoreFilter(rows: seq<Row>, minFScore: Option<int>): (r: seq<Row>)
    ensures minFScore.None? ==> r == rows
    ensures minFScore.Some? ==> forall x :: x in r <==> x in rows && x.1 >= minFScore.value
    ensures |r| <= |rows|
  {
    if rows == [] || minFScore.None? then rows
    else
      var rest := MinFScoreFilter(rows[1..], minFScore);
      assert forall x :: x in rows <==> x == rows[0] || x in rows[1..];
      if rows[0].1 >= minFScore.value then [rows[0]] + rest else rest
  }

  /** With a minimum set, a single row is kept exactly when its score reaches the minimum. */
  lemma MinFScoreFilterSingle(x: Row, m: int)
    ensures x.1 >= m ==> MinFScoreFilter([x], Some(m)) == [x]
    ensures x.1 < m ==> MinFScoreFilter([x], Some(m)) == []
  {
    assert [x][1..] == [];
  }

  /** The boolean mask works piece by piece: it keeps the rows' order and copies. */
  lemma {:induction false} MinFScoreFilterConcat(a: seq<Row>, b: seq<Row>, minFScore: Option<int>)
    ensures MinFScoreFilter(a + b, minFScore) == MinFScoreFilter(a, minFScore) + MinFScoreFilter(b, minFScore)
  {
    if minFScore.None? {
    } else if a == [] {
      assert a + b == b;
    } else {
      var ab := a + b;
      assert ab[0] == a[0] && ab[1..] == a[1..] + b;
      MinFScoreFilterConcat(a[1..], b, minFScore);
      var head := if a[0].1 >= minFScore.value then [a[0]] else [];
      var restA, restB := MinFScoreFilter(a[1..], minFScore), MinFScoreFilter(b, minFScore);
      assert MinFScoreFilter(ab, minFScore) == head + (restA + restB);
      assert MinFScoreFilter(a, minFScore) == head + restA;
      AppendAssoc(head, restA, restB);
    }
  }

  /** Filtering twice keeps the same rows as filtering once. */
  lemma {:induction false} MinFScoreFilterIdempotent(rows: seq<Row>, minFScore: Option<int>)
    ensures MinFScoreFilter(MinFScoreFilter(rows, minFScore), minFScore) == MinFScoreFilter(rows, minFScore)
  {
    if rows != [] && minFScore.Some? {
      MinFScoreFilterIdempotent(rows[1..], minFScore);
    }
  }

  /** A row with a higher score survives every threshold a lower-scored row survives. */
  lemma MinFScoreKeepsBetter(rows: seq<Row>, m: int, x: Row, y: Row)
    requires x in rows && y in rows && x.1 <= y.1
    requires x in MinFScoreFilter(rows, Some(m))
    ensures y in MinFScoreFilter(rows, Some(m))
  {
  }

  /** df["f_score"] = f_scores: the scores set beside the tickers, position by position. */
  function Column(tickers: seq<string>, scores: seq<int>): (rows: seq<Row>)
    requires |tickers| == |scores|
    ensures |rows| == |tickers|
    ensures forall i :: 0 <= i < |rows| ==> rows[i] == (tickers[i], scores[i])
  {
    if tickers == [] then [] else [(tickers[0], scores[0])] + Column(tickers[1..], scores[1..])
  }

  /**
   * The F-Score step of momentum_screen: only when include_f_score is set
   * and the F-Score module imported, score every ticker still in the price
   * frame and keep those at or above min_f_score; None when skipped.
   */
  method ScreenFScores(tickers: seq<string>, includeFScore: bool, fscoreAvailable: bool,
                       fscore: string -> Option<int>, minFScore: Option<int>)
    returns (rows: Option<seq<Row>>)
    ensures !(includeFScore && fscoreAvailable) <==> rows.None?
    ensures rows.Some? ==> rows.value == MinFScoreFilter(ScoredRows(tickers, fscore), minFScore)
  {
    if includeFScore && fscoreAvailable {
      var scores := CollectFScores(tickers, fscore);
      var all := Column(tickers, scores);
      assert all == ScoredRows(tickers, fscore);
      rows := Some(MinFScoreFilter(all, minFScore));
    } else {
      rows := None;
    }
  }

  /** With a minimum set, a ticker survives exactly when it was scored and its score reaches the minimum. */
  lemma ScreenedScoresMeaning(tickers: seq<string>, fscore: string -> Option<int>, m: int, t: string, v: int)
    ensures (t, v) in MinFScoreFilter(ScoredRows(tickers, fscore), Some(m))
        <==> t in tickers && v == ScoreOrZero(fscore(t)) && v >= m
  {
    var rows := ScoredRows(tickers, fscore);
    if t in tickers {
      var i :| 0 <= i < |tickers| && tickers[i] == t;
      assert rows[i] == (t, ScoreOrZero(fscore(t)));
    }
    if (t, v) in rows {
      var i :| 0 <= i < |rows| && rows[i] == (t, v);
      assert tickers[i] == t;
    }
  }

  /** df.head(top_n) when top_n is truthy: a negative n drops the last |n| rows. */
  function Head<T>(rows: seq<T>, topN: Option<int>): (r: seq<T>)
    ensures r <= rows
    ensures topN.None? || topN == Some(0) ==> r == rows
  {
    if topN.None? || topN.value == 0 then rows
    else if topN.value > 0 then rows[..if topN.value < |rows| then topN.value else |rows|]
    else rows[..if |rows| + topN.value > 0 then |rows| + topN.value else 0]
  }

  /**
   * A positive limit keeps the first min(n, len) rows; a negative one keeps
   * the first max(0, len + n), i.e. drops the last |n| rows.
   */
  lemma HeadBound<T>(rows: seq<T>, n: int)
    ensures Head(rows, Some(n)) <= rows
    ensures n > 0 && n <= |rows| ==> |Head(rows, Some(n))| == n
    ensures n > |rows| ==> Head(rows, Some(n)) == rows
    ensures n < 0 && |rows| + n >= 0 ==> |Head(rows, Some(n))| == |rows| + n
    ensures n < 0 && |rows| + n < 0 ==> Head(rows, Some(n)) == []
  {
  }

  // ---------------------------------------------------------------------
  // load_tickers_from_csv: the cleaning step

  /** One cell of the ticker column: dropped when missing, stripped, dropped when then empty. */
  function CleanCell(cell: Option<string>): (r: Option<string>)
    ensures r.Some? ==> r.value != "" && cell.Some? && r.value == Strip(cell.value)
    ensures r.None? ==> cell.None? || Strip(cell.value) == ""
  {
    if cell.Some? && Strip(cell.value) != "" then Some(Strip(cell.value)) else None
  }

  /** [str(t).strip() for t in tickers if str(t).strip()], after dropna: the cleaned cells in order. */
  function CleanTickers(cells: seq<Option<string>>): (r: seq<string>)
    ensures |r| <= |cells|
    ensures forall i :: 0 <= i < |r| ==> r[i] != ""
    ensures forall t :: t in r <==> exists i :: 0 <= i < |cells| && CleanCell(cells[i]) == Some(t)
  {
    if cells == [] then []
    else
      var rest := CleanTickers(cells[1..]);
      assert forall t :: t in rest ==> exists i :: 0 <= i < |cells| && CleanCell(cells[i]) == Some(t) by {
        forall t | t in rest
          ensures exists i :: 0 <= i < |cells| && CleanCell(cells[i]) == Some(t)
        {
          var i :| 0 <= i < |cells[1..]| && CleanCell(cells[1..][i]) == Some(t);
          assert cells[i + 1] == cells[1..][i];
        }
      }
      assert forall i :: 0 < i < |cells| ==> cells[i] == cells[1..][i - 1];
      if CleanCell(cells[0]).Some? then [CleanCell(cells[0]).value] + rest else rest
  }

  /** A single cell gives its cleaned ticker, or nothing. */
  lemma CleanTickersSingle(cell: Option<string>)
    ensures CleanCell(cell).Some? ==> CleanTickers([cell]) == [CleanCell(cell).value]
    ensures CleanCell(cell).None? ==> CleanTickers([cell]) == []
  {
    assert [cell][1..] == [];
  }

  lemma AppendAssoc<T>(x: seq<T>, y: seq<T>, z: seq<T>)
    ensures x + (y + z) == (x + y) + z
  {
  }

  /** The first cell's cleaned ticker, if any, then the rest cleaned. */
  lemma CleanTickersUnfold(cells: seq<Option<string>>)
    requires cells != []
    ensures CleanTickers(cells) == (if CleanCell(cells[0]).Some? then [CleanCell(cells[0]).value] else []) + CleanTickers(cells[1..])
  {
  }

  /** Cleaning works piece by piece: the kept tickers stay in order, with their copies. */
  lemma {:induction false} CleanTickersConcat(a: seq<Option<string>>, b: seq<Option<string>>)
    ensures CleanTickers(a + b) == CleanTickers(a) + CleanTickers(b)
  {
    if a == [] {
      assert a + b == b;
    } else {
      var ab := a + b;
      assert ab[0] == a[0] && ab[1..] == a[1..] + b;
      CleanTickersConcat(a[1..], b);
      CleanTickersUnfold(ab);
      CleanTickersUnfold(a);
      var h := if CleanCell(a[0]).Some? then [CleanCell(a[0]).value] else [];
      var ra, rb := CleanTickers(a[1..]), CleanTickers(b);
      assert CleanTickers(ab) == h + (ra + rb);
      assert CleanTickers(a) == h + ra;
      AppendAssoc(h, ra, rb);
    }
  }

  /** Cleaned tickers carry no surrounding whitespace, so cleaning them again changes nothing. */
  lemma {:induction false} CleanTickersStripped(cells: seq<Option<string>>)
    ensures forall i :: 0 <= i < |CleanTickers(cells)| ==> Strip(CleanTickers(cells)[i]) == CleanTickers(cells)[i]
  {
    if cells != [] {
      CleanTickersStripped(cells[1..]);
      if cells[0].Some? {
        StripIdempotent(cells[0].value);
      }
    }
  }
}
