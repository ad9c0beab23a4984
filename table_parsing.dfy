// The table helpers of the screener package's scraper: choosing the fiscal
// year columns of a financial table, reading a year out of a header,
// cleaning a numeric cell, looking a metric up by keyword, and the row rules
// by which a table's cells become labelled two-year values.  Tables arrive
// already tokenised: each row is the list of its cells' texts.

module TableParsing {

  import opened Wrappers
  import opened Text

  // ---------------------------------------------------------------------
  // _extract_year_from_header: the leftmost \b(20\d{2})\b

  /** \b20dd\b matches at position i of h. */
  predicate YearAt(h: string, i: int)
  {
    0 <= i && i + 4 <= |h| && h[i] == '2' && h[i + 1] == '0' && IsDigit(h[i + 2]) && IsDigit(h[i + 3])
    && (i == 0 || !IsWordChar(h[i - 1])) && (i + 4 == |h| || !IsWordChar(h[i + 4]))
  }

  /** The leftmost year match at or after i. */
  function FirstYearFrom(h: string, i: nat): (r: Option<nat>)
    requires i <= |h|
    ensures r.Some? ==> i <= r.value && YearAt(h, r.value) && forall j :: i <= j < r.value ==> !YearAt(h, j)
    ensures r.None? ==> forall j :: i <= j ==> !YearAt(h, j)
    decreases |h| - i
  {
    if i == |h| then None
    else if YearAt(h, i) then Some(i)
    else FirstYearFrom(h, i + 1)
  }

  function YearValue(h: string, i: int): (y: nat)
    requires YearAt(h, i)
    ensures 2000 <= y <= 2099
  {
    2000 + 10 * DigitValue(h[i + 2]) + DigitValue(h[i + 3])
  }

  /** The year of the leftmost match, 0 when the header holds no year. */
  function ExtractYearFromHeader(header: string): (y: nat)
    ensures y == 0 || 2000 <= y <= 2099
  {
    match FirstYearFrom(header, 0)
    case Some(i) => YearValue(header, i)
    case None => 0
  }

  /** 0 exactly when no year occurs; otherwise the value of the leftmost year. */
  lemma ExtractYearMeaning(header: string)
    ensures ExtractYearFromHeader(header) == 0 <==> forall i :: !YearAt(header, i)
    ensures ExtractYearFromHeader(header) != 0 ==> exists i :: (YearAt(header, i)
      && YearValue(header, i) == ExtractYearFromHeader(header)
      && forall j :: 0 <= j < i ==> !YearAt(header, j))
  {
  }

  /** A fiscal-year header, a trailing-twelve-months header, a year glued to other digits, and two years. */
  lemma YearExamples()
    ensures ExtractYearFromHeader("FY 2023") == 2023
    ensures ExtractYearFromHeader("TTM") == 0
    ensures ExtractYearFromHeader("12023") == 0
    ensures ExtractYearFromHeader("2022 2023") == 2022
  {
    assert YearAt("FY 2023", 3);
    assert !YearAt("FY 2023", 0) && !YearAt("FY 2023", 1) && !YearAt("FY 2023", 2);
    assert YearAt("2022 2023", 0);
    assert !YearAt("12023", 0) && !YearAt("12023", 1);
  }

  // ---------------------------------------------------------------------
  // _identify_fiscal_year_columns

  const PeriodSkipTerms: seq<string> := ["ttm", "trailing", "quarterly", "q1", "q2", "q3", "q4"]
  const FiscalMarkers: seq<string> := ["fy ", "fiscal", "dec ", "jan ", "2024", "2023", "2022"]

  predicate HasYear(h: string)
  {
    FirstYearFrom(h, 0).Some?
  }

  /** Kept: no period term in the lower-cased header, and a fiscal marker or a 20xx year. */
  predicate IsFiscalYearHeader(h: string)
  {
    var l := Lower(h);
    !ContainsAny(l, PeriodSkipTerms) && (ContainsAny(l, FiscalMarkers) || HasYear(h))
  }

  function YearKey(headers: seq<string>, i: nat): nat
    requires i < |headers|
  {
    ExtractYearFromHeader(headers[i])
  }

  predicate InRange(headers: seq<string>, cols: seq<nat>)
  {
    forall p :: 0 <= p < |cols| ==> cols[p] < |headers|
  }

  /** Column a sorts before column b: a later year, or the same year and an earlier column. */
  predicate Before(headers: seq<string>, a: nat, b: nat)
    requires a < |headers| && b < |headers|
  {
    YearKey(headers, a) > YearKey(headers, b) || (YearKey(headers, a) == YearKey(headers, b) && a < b)
  }

  /** Sorted by year, most recent first, ties in column order. */
  predicate OrderedByYear(headers: seq<string>, cols: seq<nat>)
    requires InRange(headers, cols)
  {
    forall p, q :: 0 <= p < q < |cols| ==> Before(headers, cols[p], cols[q])
  }

  /** The kept column indices below n, in column order. */
  function FiscalCandidates(headers: seq<string>, n: nat): (cs: seq<nat>)
    requires n <= |headers|
    ensures forall p :: 0 <= p < |cs| ==> cs[p] < n
  {
    if n == 0 then []
    else FiscalCandidates(headers, n - 1) + (if IsFiscalYearHeader(headers[n - 1]) then [n - 1] else [])
  }

  /** The candidates below n are exactly the kept headers below n. */
  lemma {:induction false} FiscalCandidatesExactly(headers: seq<string>, n: nat)
    requires n <= |headers|
    ensures forall j: nat :: j in FiscalCandidates(headers, n) <==> j < n && IsFiscalYearHeader(headers[j])
  {
    if n > 0 {
      FiscalCandidatesExactly(headers, n - 1);
      var prev := FiscalCandidates(headers, n - 1);
      var last: seq<nat> := if IsFiscalYearHeader(headers[n - 1]) then [n - 1] else [];
      forall j: nat
        ensures j in prev + last <==> j in prev || j in last
      {
      }
    }
  }

  /** The candidates are ascending. */
  lemma {:induction false} FiscalCandidatesAscending(headers: seq<string>, n: nat)
    requires n <= |headers|
    ensures forall p, q :: 0 <= p < q < |FiscalCandidates(headers, n)| ==>
      FiscalCandidates(headers, n)[p] < FiscalCandidates(headers, n)[q]
  {
    if n > 0 {
      FiscalCandidatesAscending(headers, n - 1);
    }
  }

  /** Stable insertion by year, most recent first: c goes after every column whose year is at least its own. */
  function InsertByYear(headers: seq<string>, sorted: seq<nat>, c: nat): (r: seq<nat>)
    requires c < |headers| && InRange(headers, sorted)
    ensures multiset(r) == multiset(sorted) + multiset{c}
    ensures InRange(headers, r)
  {
    if sorted == [] then [c]
    else if YearKey(headers, sorted[0]) >= YearKey(headers, c) then
      assert sorted == [sorted[0]] + sorted[1..];
      [sorted[0]] + InsertByYear(headers, sorted[1..], c)
    else [c] + sorted
  }

  /** Inserting a column larger than every sorted one keeps the order. */
  lemma {:induction false} InsertKeepsOrder(headers: seq<string>, sorted: seq<nat>, c: nat)
    requires c < |headers| && InRange(headers, sorted) && OrderedByYear(headers, sorted)
    requires forall p :: 0 <= p < |sorted| ==> sorted[p] < c
    ensures OrderedByYear(headers, InsertByYear(headers, sorted, c))
  {
    var r := InsertByYear(headers, sorted, c);
    if sorted != [] {
      if YearKey(headers, sorted[0]) >= YearKey(headers, c) {
        var rest := InsertByYear(headers, sorted[1..], c);
        InsertKeepsOrder(headers, sorted[1..], c);
        forall q | 0 <= q < |rest|
          ensures Before(headers, sorted[0], rest[q])
        {
          assert rest[q] in multiset(rest);
          assert rest[q] in multiset(sorted[1..]) || rest[q] == c;
          if rest[q] != c {
            var q' :| 0 <= q' < |sorted[1..]| && sorted[1..][q'] == rest[q];
            assert Before(headers, sorted[0], sorted[q' + 1]);
          }
        }
        assert r == [sorted[0]] + rest;
      } else {
        forall q | 0 <= q < |sorted|
          ensures Before(headers, c, sorted[q])
        {
          if q > 0 {
            assert Before(headers, sorted[0], sorted[q]);
          }
        }
      }
    }
  }

  /** Python's stable sort by descending year, as repeated insertion. */
  function SortByYear(headers: seq<string>, cols: seq<nat>): (r: seq<nat>)
    requires InRange(headers, cols)
    ensures multiset(r) == multiset(cols)
    ensures InRange(headers, r)
  {
    if cols == [] then []
    else
      assert InRange(headers, cols[..|cols| - 1]);
      assert cols == cols[..|cols| - 1] + [cols[|cols| - 1]];
      InsertByYear(headers, SortByYear(headers, cols[..|cols| - 1]), cols[|cols| - 1])
  }

  /** Sorting ascending distinct columns gives the by-year order. */
  lemma {:induction false} SortIsOrdered(headers: seq<string>, cols: seq<nat>)
    requires InRange(headers, cols) && forall p, q :: 0 <= p < q < |cols| ==> cols[p] < cols[q]
    ensures OrderedByYear(headers, SortByYear(headers, cols))
  {
    if cols != [] {
      var init, c := cols[..|cols| - 1], cols[|cols| - 1];
      SortIsOrdered(headers, init);
      var s := SortByYear(headers, init);
      forall p | 0 <= p < |s|
        ensures s[p] < c
      {
        assert s[p] in multiset(init);
        var p' :| 0 <= p' < |init| && init[p'] == s[p];
      }
      InsertKeepsOrder(headers, s, c);
    }
  }

  /** The fiscal year columns: exactly the kept headers, most recent year first, ties in column order. */
  function FiscalYearColumns(headers: seq<string>): (cols: seq<nat>)
    ensures InRange(headers, cols)
  {
    SortByYear(headers, FiscalCandidates(headers, |headers|))
  }

  /** The fiscal year columns are exactly the kept headers, ordered most recent year first. */
  lemma FiscalYearColumnsMeaning(headers: seq<string>)
    ensures forall j: nat :: j in FiscalYearColumns(headers) <==> j < |headers| && IsFiscalYearHeader(headers[j])
    ensures OrderedByYear(headers, FiscalYearColumns(headers))
  {
    var cs := FiscalCandidates(headers, |headers|);
    FiscalCandidatesExactly(headers, |headers|);
    FiscalCandidatesAscending(headers, |headers|);
    SortIsOrdered(headers, cs);
    var r := SortByYear(headers, cs);
    assert forall j :: j in r <==> j in multiset(cs);
  }

  /** A kept header appends its index to the candidates. */
  lemma CandidateKept(headers: seq<string>, i: nat)
    requires i < |headers| && IsFiscalYearHeader(headers[i])
    ensures FiscalCandidates(headers, i + 1) == FiscalCandidates(headers, i) + [i]
  {
  }

  /** A header that is not kept leaves the candidates as they are. */
  lemma CandidateSkipped(headers: seq<string>, i: nat)
    requires i < |headers| && !IsFiscalYearHeader(headers[i])
    ensures FiscalCandidates(headers, i + 1) == FiscalCandidates(headers, i)
  {
  }

  /** _identify_fiscal_year_columns: collect the kept columns, then sort them by year, most recent first. */
  method IdentifyFiscalYearColumns(headers: seq<string>) returns (yearColumns: seq<nat>)
    ensures yearColumns == FiscalYearColumns(headers)
  {
    var candidates: seq<nat> := [];
    var i: nat := 0;
    while i < |headers|
      invariant 0 <= i <= |headers|
      invariant candidates == FiscalCandidates(headers, i)
    {
      var headerLower := Lower(headers[i]);
      if ContainsAny(headerLower, PeriodSkipTerms) {
        CandidateSkipped(headers, i);
      } else if ContainsAny(headerLower, FiscalMarkers) {
        CandidateKept(headers, i);
        candidates := candidates + [i];
      } else if HasYear(headers[i]) {
        CandidateKept(headers, i);
        candidates := candidates + [i];
      } else {
        CandidateSkipped(headers, i);
      }
      i := i + 1;
    }
    // year_columns.sort(key=year, reverse=True): a stable sort, most recent year first
    yearColumns := SortByYear(headers, candidates);
  }

  // ---------------------------------------------------------------------
  // _extract_numeric_value

  const Placeholders: seq<string> := ["upgrade", "n/a", "na"]

  /** Strip, drop thousands separators, and turn the Unicode minus sign into '-'. */
  function CleanCell(text: string): string
  {
    ReplaceChar(RemoveAll(Strip(text), ","), '\U{2212}', '-')
  }

  /** A match of -?\d+\.?\d*: the sign, the integer digits and the (possibly empty) fraction digits. */
  datatype NumberMatch = NumberMatch(negative: bool, intDigits: string, fracDigits: string)

  predicate ValidMatch(m: NumberMatch)
  {
    |m.intDigits| > 0 && AllDigits(m.intDigits) && AllDigits(m.fracDigits)
  }

  /**
   * The greedy match whose digits start at j: the longest digit run there,
   * then, when a '.' follows it, the longest digit run after the '.'.
   */
  function MatchBody(s: string, j: nat, negative: bool): (m: NumberMatch)
    requires j < |s| && IsDigit(s[j])
    ensures ValidMatch(m) && m.negative == negative
    ensures j + |m.intDigits| <= |s| && s[j..j + |m.intDigits|] == m.intDigits
    ensures j + |m.intDigits| == |s| || !IsDigit(s[j + |m.intDigits|])
    ensures m.fracDigits != [] ==> j + |m.intDigits| < |s| && s[j + |m.intDigits|] == '.'
    ensures j + |m.intDigits| < |s| && s[j + |m.intDigits|] == '.' ==>
      (var k := j + |m.intDigits| + 1;
       k + |m.fracDigits| <= |s| && s[k..k + |m.fracDigits|] == m.fracDigits
       && (k + |m.fracDigits| == |s| || !IsDigit(s[k + |m.fracDigits|])))
  {
    var ints := DigitRun(s[j..]);
    var k := j + |ints|;
    if k < |s| && s[k] == '.' then NumberMatch(negative, ints, DigitRun(s[k + 1..]))
    else NumberMatch(negative, ints, [])
  }

  /** The match starting at i, if any: an optional '-' directly followed by a digit, or a digit. */
  function MatchAt(s: string, i: nat): (r: Option<NumberMatch>)
    requires i < |s|
    ensures r.Some? ==> ValidMatch(r.value)
    ensures r.Some? <==> IsDigit(s[i]) || (s[i] == '-' && i + 1 < |s| && IsDigit(s[i + 1]))
  {
    if s[i] == '-' && i + 1 < |s| && IsDigit(s[i + 1]) then Some(MatchBody(s, i + 1, true))
    else if IsDigit(s[i]) then Some(MatchBody(s, i, false))
    else None
  }

  /** The leftmost match at or after i (re.findall(...)[0]). */
  function FirstNumber(s: string, i: nat): (r: Option<NumberMatch>)
    requires i <= |s|
    ensures r.Some? ==> ValidMatch(r.value)
    ensures r.None? <==> forall j :: i <= j < |s| ==> MatchAt(s, j).None?
    decreases |s| - i
  {
    if i == |s| then None
    else if MatchAt(s, i).Some? then MatchAt(s, i)
    else FirstNumber(s, i + 1)
  }

  /** float() of a match. */
  function MatchValue(m: NumberMatch): real
    requires ValidMatch(m)
  {
    var magnitude := DigitsValue(m.intDigits) as real + DigitsValue(m.fracDigits) as real / Pow10(|m.fracDigits|) as real;
    if m.negative then -magnitude else magnitude
  }

  /**
   * _extract_numeric_value: None for a placeholder (upgrade, n/a, or any
   * 'na'), for an empty or dash-only cell, and for a cell without digits;
   * otherwise the value of the first number in the cleaned text.
   */
  function ExtractNumericValue(text: string): (r: Option<real>)
    ensures r.Some? <==> !ContainsAny(Lower(CleanCell(text)), Placeholders) && FirstNumber(CleanCell(text), 0).Some?
    ensures r.Some? ==> r.value == MatchValue(FirstNumber(CleanCell(text), 0).value)
  {
    var t := CleanCell(text);
    if ContainsAny(Lower(t), Placeholders) then None
    else if t == "" || t == "-" then None
    else match FirstNumber(t, 0)
      case None => None
      case Some(m) => Some(MatchValue(m))
  }

  /** A string with no letters contains none of the placeholders. */
  lemma NoLettersNoPlaceholder(s: string)
    requires forall i :: 0 <= i < |s| ==> !IsLowerLetter(s[i])
    ensures !ContainsAny(s, Placeholders)
  {
    forall k | 0 <= k < |Placeholders|
      ensures !Contains(s, Placeholders[k])
    {
      var pat := Placeholders[k];
      assert IsLowerLetter(pat[0]);
      forall i | 0 <= i <= |s| - |pat|
        ensures !OccursAt(s, pat, i)
      {
        assert s[i..i + |pat|][0] == s[i];
      }
      ContainsIff(s, pat);
    }
  }

  /** Reading str(n), optionally with a leading '-', gives back n or -n. */
  lemma NumericRoundTrip(n: nat, negative: bool)
    ensures ExtractNumericValue((if negative then "-" else "") + NatToString(n))
      == Some(if negative then -(n as real) else n as real)
  {
    var ds := NatToString(n);
    var s := (if negative then "-" else "") + ds;
    SignedDigitsClean(ds, negative);
    var m := NumberMatch(negative, ds, []);
    SignedDigitsMatch(ds, negative);
    assert FirstNumber(s, 0) == Some(m);
    NatToStringRoundTrip(n);
    WholeMatchValue(m);
  }

  /** An optional '-' and a run of digits pass cleaning unchanged and hold no placeholder. */
  lemma SignedDigitsClean(ds: string, negative: bool)
    requires AllDigits(ds)
    ensures CleanCell((if negative then "-" else "") + ds) == (if negative then "-" else "") + ds
    ensures !ContainsAny(Lower((if negative then "-" else "") + ds), Placeholders)
  {
    var s := (if negative then "-" else "") + ds;
    assert forall i :: 0 <= i < |s| ==> s[i] == '-' || IsDigit(s[i]);
    CleanCellNoop(s);
    assert forall i :: 0 <= i < |s| ==> Lower(s)[i] == s[i];
    NoLettersNoPlaceholder(Lower(s));
  }

  /** A match without fraction digits is worth its integer digits, with the sign. */
  lemma WholeMatchValue(m: NumberMatch)
    requires ValidMatch(m) && m.fracDigits == []
    ensures MatchValue(m) == if m.negative then -(DigitsValue(m.intDigits) as real) else DigitsValue(m.intDigits) as real
  {
    assert DigitsValue(m.fracDigits) == 0 && Pow10(|m.fracDigits|) == 1;
  }

  /** Cleaning changes nothing in a text without blanks, commas or Unicode minus signs. */
  lemma CleanCellNoop(s: string)
    requires forall i :: 0 <= i < |s| ==> !IsSpace(s[i]) && s[i] != ',' && s[i] != '\U{2212}'
    ensures CleanCell(s) == s
  {
    TrimStartNoop(s);
    TrimEndNoop(s);
    RemoveAllAbsent(s, ",");
    ReplaceCharAbsent(s, '\U{2212}', '-');
  }

  /** An optional '-' and a run of digits match as a whole, with no fraction. */
  lemma SignedDigitsMatch(ds: string, negative: bool)
    requires |ds| > 0 && AllDigits(ds)
    ensures MatchAt((if negative then "-" else "") + ds, 0) == Some(NumberMatch(negative, ds, []))
  {
    var s := (if negative then "-" else "") + ds;
    var j := if negative then 1 else 0;
    assert s[j..] == ds;
    DigitRunOfDigits(ds);
  }

  /** The empty-or-dash guard never decides anything: such cells hold no number anyway. */
  lemma EmptyOrDashHasNoNumber()
    ensures FirstNumber("", 0).None? && FirstNumber("-", 0).None?
  {
  }

  /** Placeholder cells give None: "N/A" in any case ... */
  lemma PlaceholdersRefused()
    ensures ExtractNumericValue("N/A").None?
  {
    CleanCellNoop("N/A");
    LowerTo("N/A", "n/a");
    assert StartsWith("n/a", Placeholders[1]);
  }

  /** ... and "na". */
  lemma ShortPlaceholderRefused()
    ensures ExtractNumericValue("na").None?
  {
    CleanCellNoop("na");
    LowerTo("na", "na");
    assert StartsWith("na", Placeholders[2]);
  }

  // ---------------------------------------------------------------------
  // _find_financial_metric

  /** A parsed row: the two values and the two header texts they came from. */
  datatype TableRow = TableRow(current: real, previous: real, currentYear: string, previousYear: string)

  /** An insertion-ordered dictionary from label to row. */
  type Entries = seq<(string, TableRow)>

  /** The index of the first entry at or after i whose label contains a keyword. */
  function FirstLabelMatch(data: Entries, keywords: seq<string>, i: nat): (r: Option<nat>)
    requires i <= |data|
    ensures r.Some? ==> (i <= r.value < |data| && ContainsAny(data[r.value].0, keywords)
      && forall j :: i <= j < r.value ==> !ContainsAny(data[j].0, keywords))
    ensures r.None? ==> forall j :: i <= j < |data| ==> !ContainsAny(data[j].0, keywords)
    decreases |data| - i
  {
    if i == |data| then None
    else if ContainsAny(data[i].0, keywords) then Some(i)
    else FirstLabelMatch(data, keywords, i + 1)
  }

  /** _find_financial_metric: the row of the first label, in dictionary order, that contains any keyword. */
  function FindFinancialMetric(data: Entries, keywords: seq<string>): (r: Option<TableRow>)
    ensures r.None? <==> forall j :: 0 <= j < |data| ==> !ContainsAny(data[j].0, keywords)
    ensures r.Some? ==> exists i :: (0 <= i < |data| && data[i].1 == r.value && ContainsAny(data[i].0, keywords)
      && forall j :: 0 <= j < i ==> !ContainsAny(data[j].0, keywords))
  {
    match FirstLabelMatch(data, keywords, 0)
    case None => None
    case Some(i) => Some(data[i].1)
  }

  // ---------------------------------------------------------------------
  // _parse_financial_table

  /** A table: its whole text and its rows of cell texts. */
  datatype Table = Table(text: string, rows: seq<seq<string>>)

  const TableKeywords: seq<string> := ["revenue", "income", "assets", "liabilities"]
  const RowSkipTerms: seq<string> := ["period ending", "growth", "margin", "rate"]

  function Max(a: nat, b: nat): nat
  {
    if a >= b then a else b
  }

  /** The stripped header cells of the first row. */
  function Headers(t: Table): (hs: seq<string>)
    requires |t.rows| > 0
    ensures |hs| == |t.rows[0]|
    ensures forall i :: 0 <= i < |hs| ==> hs[i] == Strip(t.rows[0][i])
  {
    seq(|t.rows[0]|, i requires 0 <= i < |t.rows[0]| => Strip(t.rows[0][i]))
  }

  /**
   * What one data row writes: nothing when it is too short for the year
   * columns, when its label holds a skip term, or when either value is not
   * numeric; otherwise its label and the two values.
   */
  function RowWrite(headers: seq<string>, cur: nat, prev: nat, cells: seq<string>): (w: seq<(string, TableRow)>)
    requires cur < |headers| && prev < |headers|
    ensures |w| <= 1
    ensures |w| == 1 ==> (|cells| > Max(cur, prev) && w[0].0 == Lower(Strip(cells[0]))
      && !ContainsAny(w[0].0, RowSkipTerms)
      && Some(w[0].1.current) == ExtractNumericValue(cells[cur])
      && Some(w[0].1.previous) == ExtractNumericValue(cells[prev]))
  {
    if |cells| <= Max(cur, prev) then []
    else
      var rowLabel := Lower(Strip(cells[0]));
      if ContainsAny(rowLabel, RowSkipTerms) then []
      else match (ExtractNumericValue(cells[cur]), ExtractNumericValue(cells[prev]))
        case (Some(c), Some(p)) => [(rowLabel, TableRow(c, p, headers[cur], headers[prev]))]
        case _ => []
  }

  /** The writes of a sequence of rows, in order. */
  function RowsWrites(headers: seq<string>, cur: nat, prev: nat, rows: seq<seq<string>>): Entries
    requires cur < |headers| && prev < |headers|
  {
    if rows == [] then []
    else RowsWrites(headers, cur, prev, rows[..|rows| - 1]) + RowWrite(headers, cur, prev, rows[|rows| - 1])
  }

  /** Python's rows[2:]. */
  function DataRows(rows: seq<seq<string>>): seq<seq<string>>
  {
    if |rows| >= 2 then rows[2..] else []
  }

  /**
   * The writes of one table: none unless its text mentions a financial
   * keyword, it has rows and at least two fiscal year columns; then the
   * rows after the first two, read at the two most recent year columns.
   */
  function TableWrites(t: Table): Entries
  {
    if !ContainsAny(Lower(t.text), TableKeywords) || t.rows == [] then []
    else
      var headers := Headers(t);
      var cols := FiscalYearColumns(headers);
      if |cols| < 2 then [] else RowsWrites(headers, cols[0], cols[1], DataRows(t.rows))
  }

  function AllWrites(tables: seq<Table>): Entries
  {
    if tables == [] then [] else AllWrites(tables[..|tables| - 1]) + TableWrites(tables[|tables| - 1])
  }

  /** d[k] = v on an insertion-ordered dictionary: overwrite in place, or append. */
  function DictSet(d: Entries, k: string, v: TableRow): Entries
  {
    if d == [] then [(k, v)]
    else if d[0].0 == k then [(k, v)] + d[1..]
    else [d[0]] + DictSet(d[1..], k, v)
  }

  /** The dictionary built by performing the writes in order. */
  function DictFrom(ws: Entries): Entries
  {
    if ws == [] then [] else DictSet(DictFrom(ws[..|ws| - 1]), ws[|ws| - 1].0, ws[|ws| - 1].1)
  }

  predicate HasKey(d: Entries, k: string)
  {
    exists i :: 0 <= i < |d| && d[i].0 == k
  }

  predicate UniqueKeys(d: Entries)
  {
    forall i, j :: 0 <= i < j < |d| ==> d[i].0 != d[j].0
  }

  /** Setting a key keeps keys unique, makes k present with value v, and leaves other keys' entries alone. */
  lemma {:induction false} DictSetProps(d: Entries, k: string, v: TableRow)
    requires UniqueKeys(d)
    ensures UniqueKeys(DictSet(d, k, v))
    ensures (k, v) in DictSet(d, k, v)
    ensures forall e :: e in d && e.0 != k ==> e in DictSet(d, k, v)
    ensures forall e :: e in DictSet(d, k, v) ==> e.0 == k || e in d
  {
    if d != [] && d[0].0 != k {
      DictSetProps(d[1..], k, v);
      var rest := DictSet(d[1..], k, v);
      forall j | 0 <= j < |rest|
        ensures rest[j].0 != d[0].0
      {
        assert rest[j] in rest;
      }
      assert DictSet(d, k, v) == [d[0]] + rest;
    }
  }

  /** The built dictionary has unique labels, each of its entries is one of the writes, and the last write is present. */
  lemma {:induction false} DictFromProps(ws: Entries)
    ensures UniqueKeys(DictFrom(ws))
    ensures forall e :: e in DictFrom(ws) ==> e in ws
    ensures |ws| > 0 ==> ws[|ws| - 1] in DictFrom(ws)
  {
    if ws != [] {
      var init, last := ws[..|ws| - 1], ws[|ws| - 1];
      DictFromProps(init);
      DictSetProps(DictFrom(init), last.0, last.1);
      forall e | e in DictFrom(ws)
        ensures e in ws
      {
        if e.0 != last.0 {
          assert e in init;
        } else {
          assert e == last || e in init;
        }
      }
    }
  }

  /** The labels of the writes, each once, in the order of its first write: the key order of a Python dict. */
  function FirstLabels(ws: Entries): seq<string>
  {
    if ws == [] then []
    else
      var init := FirstLabels(ws[..|ws| - 1]);
      if ws[|ws| - 1].0 in init then init else init + [ws[|ws| - 1].0]
  }

  /** The row of the last write to label k, None when k is never written. */
  function LastWrite(ws: Entries, k: string): Option<TableRow>
  {
    if ws == [] then None
    else if ws[|ws| - 1].0 == k then Some(ws[|ws| - 1].1)
    else LastWrite(ws[..|ws| - 1], k)
  }

  /** Every entry of d holds the row of the last write to its label. */
  predicate HoldsLastWrites(ws: Entries, d: Entries)
  {
    forall i :: 0 <= i < |d| ==> LastWrite(ws, d[i].0) == Some(d[i].1)
  }

  /** The labels of a dictionary, in its order. */
  function KeysOf(d: Entries): (ks: seq<string>)
    ensures |ks| == |d| && forall i :: 0 <= i < |d| ==> ks[i] == d[i].0
  {
    seq(|d|, i requires 0 <= i < |d| => d[i].0)
  }

  /** A label is written by ws exactly when it is written by all but the last write, or by the last one. */
  lemma HasKeySnoc(ws: Entries, k: string)
    requires ws != []
    ensures HasKey(ws, k) <==> HasKey(ws[..|ws| - 1], k) || ws[|ws| - 1].0 == k
  {
    var init := ws[..|ws| - 1];
    if HasKey(init, k) {
      var j :| 0 <= j < |init| && init[j].0 == k;
      assert ws[j] == init[j];
    }
    if HasKey(ws, k) && ws[|ws| - 1].0 != k {
      var j :| 0 <= j < |ws| && ws[j].0 == k;
      assert init[j] == ws[j];
    }
  }

  /** The first-write labels have no repeats, and are exactly the written labels. */
  lemma {:induction false} FirstLabelsProps(ws: Entries)
    ensures forall i, j :: 0 <= i < j < |FirstLabels(ws)| ==> FirstLabels(ws)[i] != FirstLabels(ws)[j]
    ensures forall k :: k in FirstLabels(ws) <==> HasKey(ws, k)
  {
    if ws != [] {
      FirstLabelsProps(ws[..|ws| - 1]);
      forall k
        ensures HasKey(ws, k) <==> HasKey(ws[..|ws| - 1], k) || ws[|ws| - 1].0 == k
      {
        HasKeySnoc(ws, k);
      }
    }
  }

  /** d[k] = v for a new key appends the entry. */
  lemma {:induction false} DictSetNew(d: Entries, k: string, v: TableRow)
    requires !HasKey(d, k)
    ensures DictSet(d, k, v) == d + [(k, v)]
  {
    if d != [] {
      forall j | 0 <= j < |d[1..]|
        ensures d[1..][j].0 != k
      {
        assert d[1..][j] == d[j + 1];
      }
      DictSetNew(d[1..], k, v);
      assert d == [d[0]] + d[1..];
    }
  }

  /** d[k] = v for a key first held at position i overwrites that entry in place. */
  lemma {:induction false} DictSetAt(d: Entries, k: string, v: TableRow, i: nat)
    requires i < |d| && d[i].0 == k && forall j :: 0 <= j < i ==> d[j].0 != k
    ensures DictSet(d, k, v) == d[i := (k, v)]
  {
    if i > 0 {
      DictSetAt(d[1..], k, v, i - 1);
      assert d[i := (k, v)] == [d[0]] + d[1..][i - 1 := (k, v)];
    }
  }

  /** The labels after one more write to k. */
  lemma FirstLabelsSnoc(init: Entries, k: string, v: TableRow)
    ensures FirstLabels(init + [(k, v)]) == if k in FirstLabels(init) then FirstLabels(init) else FirstLabels(init) + [k]
  {
    assert (init + [(k, v)])[..|init|] == init;
  }

  /** The last write to x after one more write to k. */
  lemma LastWriteSnoc(init: Entries, k: string, v: TableRow, x: string)
    ensures LastWrite(init + [(k, v)], x) == if x == k then Some(v) else LastWrite(init, x)
  {
    assert (init + [(k, v)])[..|init|] == init;
  }

  /** One more write to a label already present: it takes the label's place, and the keys stay. */
  lemma OverwriteStep(init: Entries, d: Entries, k: string, v: TableRow)
    requires KeysOf(d) == FirstLabels(init) && HoldsLastWrites(init, d)
    requires k in FirstLabels(init)
    ensures KeysOf(DictSet(d, k, v)) == FirstLabels(init + [(k, v)])
    ensures HoldsLastWrites(init + [(k, v)], DictSet(d, k, v))
  {
    FirstLabelsProps(init);
    FirstLabelsSnoc(init, k, v);
    var i :| 0 <= i < |d| && KeysOf(d)[i] == k;
    DictSetAt(d, k, v, i);
    var e := d[i := (k, v)];
    assert KeysOf(e) == KeysOf(d);
    forall j | 0 <= j < |e|
      ensures LastWrite(init + [(k, v)], e[j].0) == Some(e[j].1)
    {
      LastWriteSnoc(init, k, v, e[j].0);
      if j != i {
        assert KeysOf(d)[j] != KeysOf(d)[i];
      }
    }
  }

  /** One more write to a new label: it is appended, and so is its label. */
  lemma AppendStep(init: Entries, d: Entries, k: string, v: TableRow)
    requires KeysOf(d) == FirstLabels(init) && HoldsLastWrites(init, d)
    requires k !in FirstLabels(init)
    ensures KeysOf(DictSet(d, k, v)) == FirstLabels(init + [(k, v)])
    ensures HoldsLastWrites(init + [(k, v)], DictSet(d, k, v))
  {
    FirstLabelsSnoc(init, k, v);
    forall j | 0 <= j < |d|
      ensures d[j].0 != k
    {
      assert KeysOf(d)[j] in FirstLabels(init);
    }
    DictSetNew(d, k, v);
    var e := d + [(k, v)];
    assert KeysOf(e) == KeysOf(d) + [k];
    forall j | 0 <= j < |e|
      ensures LastWrite(init + [(k, v)], e[j].0) == Some(e[j].1)
    {
      if j < |d| {
        assert e[j] == d[j];
        LastWriteSnoc(init, k, v, d[j].0);
        assert LastWrite(init, d[j].0) == Some(d[j].1);
      } else {
        assert e[j] == (k, v);
        LastWriteSnoc(init, k, v, k);
      }
    }
  }

  /**
   * The dictionary the writes build: its labels are the written labels in
   * the order of their first write, and each holds the row of its last write.
   */
  lemma {:induction false} DictFromMeaning(ws: Entries)
    ensures KeysOf(DictFrom(ws)) == FirstLabels(ws)
    ensures HoldsLastWrites(ws, DictFrom(ws))
  {
    if ws != [] {
      var init, k, v := ws[..|ws| - 1], ws[|ws| - 1].0, ws[|ws| - 1].1;
      DictFromMeaning(init);
      assert ws == init + [(k, v)];
      if k in FirstLabels(init) {
        OverwriteStep(init, DictFrom(init), k, v);
      } else {
        AppendStep(init, DictFrom(init), k, v);
      }
    }
  }

  /** The first two rows, the header row and the period-ending row, are never read as data. */
  lemma SecondRowIgnored(t: Table, other: seq<string>)
    requires |t.rows| >= 2
    ensures TableWrites(t.(rows := t.rows[1 := other])) == TableWrites(t)
  {
    var t2 := t.(rows := t.rows[1 := other]);
    assert t2.rows[0] == t.rows[0];
    assert Headers(t2) == Headers(t);
    assert DataRows(t2.rows) == DataRows(t.rows);
  }

  /** A table whose text names no financial keyword writes nothing. */
  lemma IrrelevantTableIgnored(t: Table)
    requires !ContainsAny(Lower(t.text), TableKeywords)
    ensures TableWrites(t) == []
  {
  }

  /** Every row write carries a label free of skip terms. */
  lemma {:induction false} RowsWritesClean(headers: seq<string>, cur: nat, prev: nat, rows: seq<seq<string>>)
    requires cur < |headers| && prev < |headers|
    ensures forall e :: e in RowsWrites(headers, cur, prev, rows) ==> !ContainsAny(e.0, RowSkipTerms)
  {
    if rows != [] {
      RowsWritesClean(headers, cur, prev, rows[..|rows| - 1]);
    }
  }

  lemma {:induction false} AllWritesClean(tables: seq<Table>)
    ensures forall e :: e in AllWrites(tables) ==> !ContainsAny(e.0, RowSkipTerms)
  {
    if tables != [] {
      AllWritesClean(tables[..|tables| - 1]);
      var t := tables[|tables| - 1];
      if ContainsAny(Lower(t.text), TableKeywords) && t.rows != [] {
        var headers := Headers(t);
        var cols := FiscalYearColumns(headers);
        if |cols| >= 2 {
          RowsWritesClean(headers, cols[0], cols[1], DataRows(t.rows));
        }
      }
    }
  }

  /**
   * The parsed dictionary: one entry per label, each written by some row, no
   * label holding a skip term; a label is present exactly when some row
   * writes it, the labels stand in the order of their first write, and each
   * holds the row of its last write.
   */
  lemma ParsedDictionary(tables: seq<Table>)
    ensures UniqueKeys(DictFrom(AllWrites(tables)))
    ensures forall e :: e in DictFrom(AllWrites(tables)) ==> e in AllWrites(tables) && !ContainsAny(e.0, RowSkipTerms)
    ensures forall k :: HasKey(DictFrom(AllWrites(tables)), k) <==> HasKey(AllWrites(tables), k)
    ensures KeysOf(DictFrom(AllWrites(tables))) == FirstLabels(AllWrites(tables))
    ensures HoldsLastWrites(AllWrites(tables), DictFrom(AllWrites(tables)))
  {
    var ws := AllWrites(tables);
    var d := DictFrom(ws);
    DictFromProps(ws);
    AllWritesClean(tables);
    DictFromMeaning(ws);
    FirstLabelsProps(ws);
    forall k
      ensures HasKey(d, k) <==> HasKey(ws, k)
    {
      if HasKey(d, k) {
        var i :| 0 <= i < |d| && d[i].0 == k;
        assert KeysOf(d)[i] == k;
      }
      if HasKey(ws, k) {
        var i :| 0 <= i < |KeysOf(d)| && KeysOf(d)[i] == k;
        assert d[i].0 == k;
      }
    }
  }

  /** The writes of the first ti + 1 tables: those of the first ti, then those of table ti. */
  lemma AllWritesSnoc(tables: seq<Table>, ti: nat)
    requires ti < |tables|
    ensures AllWrites(tables[..ti + 1]) == AllWrites(tables[..ti]) + TableWrites(tables[ti])
  {
    assert tables[..ti + 1][..ti] == tables[..ti];
  }

  /** _parse_financial_table: every table, every data row, each write into the dictionary. */
  method ParseFinancialTable(tables: seq<Table>) returns (data: Entries)
    ensures data == DictFrom(AllWrites(tables))
  {
    data := [];
    var ti: nat := 0;
    while ti < |tables|
      invariant ti <= |tables|
      invariant data == DictFrom(AllWrites(tables[..ti]))
    {
      AllWritesSnoc(tables, ti);
      data := ParseTable(data, AllWrites(tables[..ti]), tables[ti]);
      ti := ti + 1;
    }
    assert tables[..ti] == tables;
  }

  /**
   * One pass of the table loop: a table whose text names a statement and
   * that has rows, and whose headers give two fiscal-year columns, has its
   * data rows written; any other table leaves the dictionary as it is.
   */
  method ParseTable(data0: Entries, base: Entries, table: Table) returns (data: Entries)
    requires data0 == DictFrom(base)
    ensures data == DictFrom(base + TableWrites(table))
  {
    data := data0;
    var tableText := Lower(table.text);
    if ContainsAny(tableText, TableKeywords) && table.rows != [] {
      var headers := Headers(table);
      var yearColumns := IdentifyFiscalYearColumns(headers);
      if |yearColumns| >= 2 {
        data := ParseRows(data, base, headers, yearColumns[0], yearColumns[1], DataRows(table.rows));
        return;
      }
    }
    assert TableWrites(table) == [];
    assert base + TableWrites(table) == base;
  }

  /** The writes onto an existing dictionary. */
  function Written(d: Entries, w: Entries): Entries
    requires |w| <= 1
  {
    if w == [] then d else DictSet(d, w[0].0, w[0].1)
  }

  /** The row loop of one table. */
  method ParseRows(data0: Entries, base: Entries, headers: seq<string>, cur: nat, prev: nat, rows: seq<seq<string>>)
    returns (data: Entries)
    requires cur < |headers| && prev < |headers|
    requires data0 == DictFrom(base)
    ensures data == DictFrom(base + RowsWrites(headers, cur, prev, rows))
  {
    data := data0;
    var r := 0;
    assert base + RowsWrites(headers, cur, prev, rows[..0]) == base;
    while r < |rows|
      invariant 0 <= r <= |rows|
      invariant data == DictFrom(base + RowsWrites(headers, cur, prev, rows[..r]))
    {
      WritesStep(base, headers, cur, prev, rows, r);
      data := ParseRow(data, headers, cur, prev, rows[r]);
      r := r + 1;
    }
    assert rows[..r] == rows;
  }

  /** Writing one more row onto the dictionary built so far. */
  lemma WritesStep(base: Entries, headers: seq<string>, cur: nat, prev: nat, rows: seq<seq<string>>, r: nat)
    requires cur < |headers| && prev < |headers| && r < |rows|
    ensures DictFrom(base + RowsWrites(headers, cur, prev, rows[..r + 1]))
      == Written(DictFrom(base + RowsWrites(headers, cur, prev, rows[..r])), RowWrite(headers, cur, prev, rows[r]))
  {
    assert rows[..r + 1][..r] == rows[..r];
    var ws := base + RowsWrites(headers, cur, prev, rows[..r]);
    var w := RowWrite(headers, cur, prev, rows[r]);
    assert base + RowsWrites(headers, cur, prev, rows[..r + 1]) == ws + w;
    if w == [] {
      assert ws + w == ws;
    } else {
      assert (ws + w)[..|ws|] == ws;
    }
  }

  /** One data row: skipped when short, when its label holds a skip term, or when a value is not numeric. */
  method ParseRow(data0: Entries, headers: seq<string>, cur: nat, prev: nat, cells: seq<string>) returns (data: Entries)
    requires cur < |headers| && prev < |headers|
    ensures data == Written(data0, RowWrite(headers, cur, prev, cells))
  {
    data := data0;
    if |cells| > Max(cur, prev) {
      var rowLabel := Lower(Strip(cells[0]));
      if !ContainsAny(rowLabel, RowSkipTerms) {
        var currentValue := ExtractNumericValue(cells[cur]);
        var previousValue := ExtractNumericValue(cells[prev]);
        if currentValue.Some? && previousValue.Some? {
          data := DictSet(data, rowLabel, TableRow(currentValue.value, previousValue.value, headers[cur], headers[prev]));
        }
      }
    }
  }
}
