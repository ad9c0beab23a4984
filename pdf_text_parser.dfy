// PDFFinancialParser, the text-based annual-report parser: the text
// dump with one page marker per non-empty page, the page a text offset
// falls on, the first-pattern search for the three statements with their
// context windows, the lazy extract-then-find order, and the number
// cleaning.  Page texts arrive already extracted (the PDF libraries are
// not modelled) and the per-statement value parsers are a parameter.

module PdfTextParser {

  import opened Wrappers
  import opened Text

  /** A financial statement section: its type, first and last page, and the text around its heading. */
  datatype FinancialStatement = FinancialStatement(name: string, pageStart: nat, pageEnd: nat, content: string)

  // ---------------------------------------------------------------------
  // The text dump written by the three extraction methods

  /** The block written for page n (1-based) with non-empty text t. */
  function PageBlock(n: nat, t: string): string
  {
    "\n--- PAGE " + NatToString(n) + " ---\n" + t + "\n"
  }

  /** The text content after the first k pages: one block per page whose text is non-empty. */
  function Dump(pageTexts: seq<string>, k: nat): string
    requires k <= |pageTexts|
  {
    if k == 0 then ""
    else Dump(pageTexts, k - 1) + (if pageTexts[k - 1] != "" then PageBlock(k, pageTexts[k - 1]) else "")
  }

  /** The pages list after the first k pages: the non-empty texts, in order. */
  function NonEmptyPages(pageTexts: seq<string>, k: nat): (ps: seq<string>)
    requires k <= |pageTexts|
    ensures |ps| <= k
    ensures forall i :: 0 <= i < |ps| ==> ps[i] != ""
  {
    if k == 0 then []
    else NonEmptyPages(pageTexts, k - 1) + (if pageTexts[k - 1] != "" then [pageTexts[k - 1]] else [])
  }

  /** A page with text adds its block to the dump and its text to the pages list. */
  lemma PageDumped(pageTexts: seq<string>, i: nat)
    requires i < |pageTexts| && pageTexts[i] != ""
    ensures Dump(pageTexts, i + 1) == Dump(pageTexts, i) + PageBlock(i + 1, pageTexts[i])
    ensures NonEmptyPages(pageTexts, i + 1) == NonEmptyPages(pageTexts, i) + [pageTexts[i]]
  {
  }

  /** A page without text changes neither the dump nor the pages list. */
  lemma PageBlank(pageTexts: seq<string>, i: nat)
    requires i < |pageTexts| && pageTexts[i] == ""
    ensures Dump(pageTexts, i + 1) == Dump(pageTexts, i)
    ensures NonEmptyPages(pageTexts, i + 1) == NonEmptyPages(pageTexts, i)
  {
  }

  /** When every page has text, the pages list is the page texts themselves. */
  lemma {:induction false} AllPagesKept(pageTexts: seq<string>, k: nat)
    requires k <= |pageTexts|
    requires forall i :: 0 <= i < |pageTexts| ==> pageTexts[i] != ""
    ensures NonEmptyPages(pageTexts, k) == pageTexts[..k]
  {
    if k > 0 {
      AllPagesKept(pageTexts, k - 1);
      assert pageTexts[..k] == pageTexts[..k - 1] + [pageTexts[k - 1]];
    }
  }

  /** Pages without text leave neither a marker nor an entry. */
  lemma {:induction false} EmptyPagesLeaveNothing(pageTexts: seq<string>, k: nat)
    requires k <= |pageTexts|
    requires forall i :: 0 <= i < |pageTexts| ==> pageTexts[i] == ""
    ensures Dump(pageTexts, k) == "" && NonEmptyPages(pageTexts, k) == []
  {
    if k > 0 {
      EmptyPagesLeaveNothing(pageTexts, k - 1);
    }
  }

  /** One page with text makes the text content non-empty. */
  lemma {:induction false} DumpNonEmpty(pageTexts: seq<string>, k: nat, i: nat)
    requires i < k <= |pageTexts| && pageTexts[i] != ""
    ensures Dump(pageTexts, k) != ""
  {
    if i < k - 1 {
      DumpNonEmpty(pageTexts, k - 1, i);
    }
  }

  // ---------------------------------------------------------------------
  // _get_page_number

  /** A match of `--- PAGE \d+ ---` starting at i: its length. */
  function MarkerAt(s: string, i: nat): (r: Option<nat>)
    ensures r.Some? ==> i + r.value <= |s| && r.value > 0
  {
    if i <= |s| && StartsWith(s[i..], "--- PAGE ") then
      var ds := DigitRun(s[i + 9..]);
      if |ds| > 0 && StartsWith(s[i + 9 + |ds|..], " ---") then Some(9 + |ds| + 4) else None
    else None
  }

  /** The starts of re.finditer's matches from i on: leftmost first, then from the end of each match. */
  function MarkersFrom(s: string, i: nat): (ms: seq<nat>)
    ensures forall j :: 0 <= j < |ms| ==> i <= ms[j] < |s|
    ensures forall j, k :: 0 <= j < k < |ms| ==> ms[j] < ms[k]
    decreases |s| - i
  {
    if i >= |s| then []
    else match MarkerAt(s, i)
      case Some(len) => [i] + MarkersFrom(s, i + len)
      case None => MarkersFrom(s, i + 1)
  }

  function PageMarkers(s: string): seq<nat>
  {
    MarkersFrom(s, 0)
  }

  /** The index of the first marker from i on that starts after position, or the marker count. */
  function FirstMarkerAfter(ms: seq<nat>, position: int, i: nat): (r: nat)
    requires i <= |ms|
    ensures i <= r <= |ms|
    ensures forall j :: i <= j < r ==> ms[j] <= position
    ensures r < |ms| ==> position < ms[r]
    decreases |ms| - i
  {
    if i == |ms| then |ms|
    else if position < ms[i] then i
    else FirstMarkerAfter(ms, position, i + 1)
  }

  /** How many markers start at or before position. */
  function CountAtOrBefore(ms: seq<nat>, position: int): nat
  {
    if ms == [] then 0
    else CountAtOrBefore(ms[..|ms| - 1], position) + (if ms[|ms| - 1] <= position then 1 else 0)
  }

  /** Markers split at r into those at or before position and those after: then r of them are at or before. */
  lemma {:induction false} CountOfSplit(ms: seq<nat>, position: int, r: nat)
    requires r <= |ms|
    requires forall j :: 0 <= j < r ==> ms[j] <= position
    requires forall j :: r <= j < |ms| ==> position < ms[j]
    ensures CountAtOrBefore(ms, position) == r
  {
    if |ms| > 0 {
      if r == |ms| {
        CountOfSplit(ms[..|ms| - 1], position, r - 1);
      } else {
        CountOfSplit(ms[..|ms| - 1], position, r);
      }
    }
  }

  /** With ascending markers the page number is the number of markers at or before the position. */
  lemma PageNumberCounts(ms: seq<nat>, position: int)
    requires forall j, k :: 0 <= j < k < |ms| ==> ms[j] < ms[k]
    ensures FirstMarkerAfter(ms, position, 0) == CountAtOrBefore(ms, position)
  {
    var r := FirstMarkerAfter(ms, position, 0);
    forall j | r <= j < |ms|
      ensures position < ms[j]
    {
      if j > r {
        assert ms[r] < ms[j];
      }
    }
    CountOfSplit(ms, position, r);
  }

  /** A later position never lies on an earlier page. */
  lemma PageNumberMonotone(ms: seq<nat>, p: int, q: int)
    requires p <= q
    ensures FirstMarkerAfter(ms, p, 0) <= FirstMarkerAfter(ms, q, 0)
  {
    var rq := FirstMarkerAfter(ms, q, 0);
    forall j | 0 <= j < rq
      ensures ms[j] <= q
    {
    }
  }

  /** The digits of str(n) followed by a non-digit are exactly the digit run there. */
  lemma {:induction false} DigitRunOfPrefix(ds: string, rest: string)
    requires AllDigits(ds) && (rest == [] || !IsDigit(rest[0]))
    ensures DigitRun(ds + rest) == ds
  {
    if ds != [] {
      assert (ds + rest)[1..] == ds[1..] + rest;
      DigitRunOfPrefix(ds[1..], rest);
    }
  }

  /** The marker written for a page is a match of the marker pattern, right after the leading newline. */
  lemma PageBlockMarker(n: nat, t: string)
    ensures MarkerAt(PageBlock(n, t), 1) == Some(9 + |NatToString(n)| + 4)
  {
    var b := PageBlock(n, t);
    var ds := NatToString(n);
    assert b[1..] == "--- PAGE " + (ds + " ---\n" + t + "\n");
    assert b[1..][..9] == "--- PAGE ";
    assert b[1 + 9..] == ds + (" ---\n" + t + "\n");
    DigitRunOfPrefix(ds, " ---\n" + t + "\n");
    assert b[1 + 9 + |ds|..] == " ---\n" + t + "\n";
  }

  // ---------------------------------------------------------------------
  // find_financial_statements

  /** The statement types, in the order the patterns dictionary lists them. */
  const StatementTypes: seq<string> := ["income_statement", "balance_sheet", "cash_flow"]

  /** The heading patterns of each statement type, in the order they are tried. */
  const StatementPatterns: seq<seq<string>> := [
    ["income statement", "statement of income", "profit and loss",
     "consolidated income statement", "statement of comprehensive income"],
    ["balance sheet", "statement of financial position", "consolidated balance sheet",
     "statement of assets and liabilities"],
    ["cash flow statement", "statement of cash flows", "consolidated cash flow",
     "cash flow from operations"]]

  /** The leftmost case-insensitive match of pattern in text at or after i. */
  function MatchFrom(text: string, pattern: string, i: nat): (r: Option<nat>)
    ensures r.Some? ==> i <= r.value && OccursAt(Lower(text), pattern, r.value)
    ensures r.Some? ==> forall k :: i <= k < r.value ==> !OccursAt(Lower(text), pattern, k)
    ensures r.None? ==> forall k :: i <= k ==> !OccursAt(Lower(text), pattern, k)
    decreases |text| - i
  {
    if i + |pattern| > |text| then None
    else if Lower(text)[i..i + |pattern|] == pattern then Some(i)
    else MatchFrom(text, pattern, i + 1)
  }

  /** The first pattern from p on that matches anywhere: its index and its leftmost match. */
  function FirstPattern(text: string, patterns: seq<string>, p: nat): (r: Option<(nat, nat)>)
    requires p <= |patterns|
    ensures r.Some? ==> p <= r.value.0 < |patterns| && MatchFrom(text, patterns[r.value.0], 0) == Some(r.value.1)
    ensures r.Some? ==> forall q :: p <= q < r.value.0 ==> MatchFrom(text, patterns[q], 0).None?
    ensures r.None? ==> forall q :: p <= q < |patterns| ==> MatchFrom(text, patterns[q], 0).None?
    decreases |patterns| - p
  {
    if p == |patterns| then None
    else match MatchFrom(text, patterns[p], 0)
      case Some(m) => Some((p, m))
      case None => FirstPattern(text, patterns, p + 1)
  }

  function Max0(x: int): nat { if x < 0 then 0 else x }

  function MinLen(text: string, x: nat): nat { if x < |text| then x else |text| }

  /** The statement recorded for a match of pattern at start: its pages and its context window. */
  function StatementAt(text: string, name: string, pattern: string, start: nat): (st: FinancialStatement)
    requires start + |pattern| <= |text|
    ensures st.name == name
    ensures st.pageStart == FirstMarkerAfter(PageMarkers(text), start, 0)
    ensures st.pageEnd == FirstMarkerAfter(PageMarkers(text), start + |pattern|, 0)
    ensures st.content == text[Max0(start - 500)..MinLen(text, start + |pattern| + 2000)]
    ensures |st.content| <= 500 + |pattern| + 2000
  {
    var markers := PageMarkers(text);
    FinancialStatement(name, FirstMarkerAfter(markers, start, 0), FirstMarkerAfter(markers, start + |pattern|, 0),
      text[Max0(start - 500)..MinLen(text, start + |pattern| + 2000)])
  }

  /** The statement of type t, if any of its patterns matches. */
  function StatementFor(text: string, t: nat): Option<FinancialStatement>
    requires t < |StatementTypes|
  {
    match FirstPattern(text, StatementPatterns[t], 0)
    case Some((p, m)) => Some(StatementAt(text, StatementTypes[t], StatementPatterns[t][p], m))
    case None => None
  }

  /** The statements found for the first n types. */
  function StatementsUpTo(text: string, n: nat): map<string, FinancialStatement>
    requires n <= |StatementTypes|
  {
    if n == 0 then map[]
    else
      var m := StatementsUpTo(text, n - 1);
      match StatementFor(text, n - 1)
      case Some(st) => m[StatementTypes[n - 1] := st]
      case None => m
  }

  function Statements(text: string): map<string, FinancialStatement>
  {
    StatementsUpTo(text, |StatementTypes|)
  }

  /** A type is recorded exactly when one of its patterns matches, and then it holds that type's statement. */
  lemma {:induction false} StatementsUpToIff(text: string, n: nat, t: nat)
    requires n <= |StatementTypes| && t < |StatementTypes|
    ensures StatementTypes[t] in StatementsUpTo(text, n) <==> t < n && StatementFor(text, t).Some?
    ensures StatementTypes[t] in StatementsUpTo(text, n) ==> StatementsUpTo(text, n)[StatementTypes[t]] == StatementFor(text, t).value
  {
    if n > 0 {
      StatementsUpToIff(text, n - 1, t);
    }
  }

  /** A type whose first matching pattern is p, at start, adds the statement taken there. */
  lemma StatementFound(text: string, t: nat, p: nat, start: nat)
    requires t < |StatementTypes| && p < |StatementPatterns[t]|
    requires FirstPattern(text, StatementPatterns[t], 0) == Some((p, start))
    ensures StatementsUpTo(text, t + 1)
         == StatementsUpTo(text, t)[StatementTypes[t] := StatementAt(text, StatementTypes[t], StatementPatterns[t][p], start)]
  {
  }

  /** When the patterns before p do not match and the p-th does, p is the first matching pattern. */
  lemma FirstPatternAt(text: string, patterns: seq<string>, p: nat, start: nat)
    requires p < |patterns| && FirstPattern(text, patterns, p) == FirstPattern(text, patterns, 0)
    requires MatchFrom(text, patterns[p], 0) == Some(start)
    ensures FirstPattern(text, patterns, 0) == Some((p, start))
  {
  }

  /** A type none of whose patterns matches adds nothing. */
  lemma StatementMissing(text: string, t: nat, before: map<string, FinancialStatement>)
    requires t < |StatementTypes| && before == StatementsUpTo(text, t)
    requires FirstPattern(text, StatementPatterns[t], |StatementPatterns[t]|) == FirstPattern(text, StatementPatterns[t], 0)
    ensures StatementsUpTo(text, t + 1) == before
  {
  }

  /** Only the three statement types are ever recorded. */
  lemma {:induction false} StatementKeys(text: string, n: nat)
    requires n <= |StatementTypes|
    ensures forall k :: k in StatementsUpTo(text, n) ==> exists t :: 0 <= t < n && k == StatementTypes[t]
  {
    if n > 0 {
      StatementKeys(text, n - 1);
    }
  }

  /**
   * At most one statement per type: the one of the first pattern, in list
   * order, that matches anywhere, taken at that pattern's leftmost match,
   * with up to 500 characters before it and 2000 after it.
   */
  lemma StatementIsFirstPatternMatch(text: string, t: nat)
    requires t < |StatementTypes|
    ensures StatementTypes[t] in Statements(text) <==>
      exists p :: 0 <= p < |StatementPatterns[t]| && MatchFrom(text, StatementPatterns[t][p], 0).Some?
    ensures StatementTypes[t] in Statements(text) ==>
      (exists p, m :: 0 <= p < |StatementPatterns[t]| && MatchFrom(text, StatementPatterns[t][p], 0) == Some(m)
         && (forall q :: 0 <= q < p ==> MatchFrom(text, StatementPatterns[t][q], 0).None?)
         && Statements(text)[StatementTypes[t]] == StatementAt(text, StatementTypes[t], StatementPatterns[t][p], m))
  {
    StatementsUpToIff(text, |StatementTypes|, t);
  }

  /** The context window holds the matched heading, and a heading's first page is never after its last. */
  lemma ContextHoldsHeading(text: string, name: string, pattern: string, start: nat)
    requires OccursAt(Lower(text), pattern, start)
    ensures OccursAt(Lower(StatementAt(text, name, pattern, start).content), pattern, start - Max0(start - 500))
    ensures StatementAt(text, name, pattern, start).pageStart <= StatementAt(text, name, pattern, start).pageEnd
  {
    var st := StatementAt(text, name, pattern, start);
    var lo := Max0(start - 500);
    var hi := MinLen(text, start + |pattern| + 2000);
    OccursInLowerSlice(text, pattern, start, lo, hi);
    PageNumberMonotone(PageMarkers(text), start, start + |pattern|);
  }

  /** A match in the lower-cased text is still a match in the lower-cased slice around it. */
  lemma OccursInLowerSlice(text: string, pattern: string, start: nat, lo: nat, hi: nat)
    requires OccursAt(Lower(text), pattern, start)
    requires lo <= start && start + |pattern| <= hi <= |text|
    ensures OccursAt(Lower(text[lo..hi]), pattern, start - lo)
  {
    var c := text[lo..hi];
    var a := Lower(c)[start - lo..start - lo + |pattern|];
    var b := Lower(text)[start..start + |pattern|];
    assert forall k :: 0 <= k < |a| ==> a[k] == LowerChar(c[start - lo + k]) == LowerChar(text[start + k]) == b[k];
    assert a == b;
  }

  // ---------------------------------------------------------------------
  // _parse_number

  /** The exponent after e or E: an optional sign and at least one digit, and nothing else. */
  function ParseExponent(s: string): (r: Option<int>)
  {
    var negative := |s| > 0 && s[0] == '-';
    var body := if |s| > 0 && (s[0] == '-' || s[0] == '+') then s[1..] else s;
    var ds := DigitRun(body);
    if |ds| == 0 || |ds| != |body| then None
    else if negative then Some(-(DigitsValue(ds) as int)) else Some(DigitsValue(ds))
  }

  /** m * 10^e for an integer exponent. */
  function Scale(m: real, e: int): real
  {
    if e < 0 then m / Pow10(-e) as real else m * Pow10(e) as real
  }

  /** The value of intDigits.fracDigits followed by rest, which must be empty or an exponent. */
  function WithExponent(intDigits: string, fracDigits: string, rest: string): (r: Option<real>)
    requires AllDigits(intDigits) && AllDigits(fracDigits)
  {
    if |intDigits| + |fracDigits| == 0 then None
    else
      var mantissa := DigitsValue(intDigits + fracDigits) as real / Pow10(|fracDigits|) as real;
      if rest == "" then Some(mantissa)
      else if rest[0] != 'e' && rest[0] != 'E' then None
      else match ParseExponent(rest[1..])
        case Some(e) => Some(Scale(mantissa, e))
        case None => None
  }

  /** float(s) without a sign: digits with an optional point and fraction, then an optional exponent. */
  function ParseUnsigned(s: string): (r: Option<real>)
  {
    var intDigits := DigitRun(s);
    var rest := s[|intDigits|..];
    if |rest| > 0 && rest[0] == '.' then
      var fracDigits := DigitRun(rest[1..]);
      WithExponent(intDigits, fracDigits, rest[1..][|fracDigits|..])
    else WithExponent(intDigits, "", rest)
  }

  /** float(s) for the decimal forms: an optional sign, then an unsigned decimal. */
  function ParseFloat(s: string): (r: Option<real>)
  {
    if |s| > 0 && s[0] == '-' then
      match ParseUnsigned(s[1..])
      case Some(v) => Some(-v)
      case None => None
    else if |s| > 0 && s[0] == '+' then ParseUnsigned(s[1..])
    else ParseUnsigned(s)
  }

  /** The cleaned text _parse_number hands to float: stripped, commas and spaces removed, "(x)" read as "-x". */
  function CleanNumber(text: string): (t: string)
  {
    var cleaned := RemoveAll(RemoveAll(Strip(text), ","), " ");
    if StartsWith(cleaned, "(") && EndsWith(cleaned, ")") then
      assert cleaned[..1][0] == cleaned[0] && cleaned[|cleaned| - 1..][0] == cleaned[|cleaned| - 1];
      "-" + cleaned[1..|cleaned| - 1]
    else cleaned
  }

  /** Cleaning adds no character but the '-' of a bracketed negative. */
  lemma CleanNumberChars(text: string)
    ensures forall c :: c in CleanNumber(text) ==> c in text || c == '-'
  {
    var stripped := Strip(text);
    var noCommas := RemoveAll(stripped, ",");
    var cleaned := RemoveAll(noCommas, " ");
    StripChars(text);
    RemoveAllChars(stripped, ",");
    RemoveAllChars(noCommas, " ");
    if StartsWith(cleaned, "(") && EndsWith(cleaned, ")") {
      assert cleaned[..1][0] == cleaned[0] && cleaned[|cleaned| - 1..][0] == cleaned[|cleaned| - 1];
      assert forall c :: c in cleaned[1..|cleaned| - 1] ==> c in cleaned;
    }
  }

  /** _parse_number: the value of the cleaned text, or None when it is not a number; a text without a digit is none. */
  function ParseNumber(text: string): (r: Option<real>)
    ensures (forall i :: 0 <= i < |text| ==> !IsDigit(text[i])) ==> r.None?
  {
    CleanNumberChars(text);
    var cleaned := CleanNumber(text);
    if forall i :: 0 <= i < |text| ==> !IsDigit(text[i]) then
      assert forall i :: 0 <= i < |cleaned| ==> !IsDigit(cleaned[i]) by {
        forall i | 0 <= i < |cleaned|
          ensures !IsDigit(cleaned[i])
        {
          assert cleaned[i] in cleaned;
        }
      }
      NoDigitNoNumber(cleaned);
      ParseFloat(cleaned)
    else ParseFloat(cleaned)
  }

  /** A text without a digit is never a number. */
  lemma NoDigitNoNumber(s: string)
    requires forall i :: 0 <= i < |s| ==> !IsDigit(s[i])
    ensures ParseFloat(s) == None
  {
    if |s| > 0 && (s[0] == '-' || s[0] == '+') {
      NoDigitNoUnsigned(s[1..]);
    } else {
      NoDigitNoUnsigned(s);
    }
  }

  lemma NoDigitNoUnsigned(s: string)
    requires forall i :: 0 <= i < |s| ==> !IsDigit(s[i])
    ensures ParseUnsigned(s) == None
  {
    assert DigitRun(s) == "";
    if |s| > 1 {
      assert s[1..][0] == s[1];
    }
  }

  /** A run of digits reads as its decimal value. */
  lemma UnsignedDigits(ds: string)
    requires |ds| > 0 && AllDigits(ds)
    ensures ParseUnsigned(ds) == Some(DigitsValue(ds) as real)
  {
    DigitRunOfDigits(ds);
    assert ds + "" == ds;
  }

  /** str(n) reads back as n. */
  lemma NumberRoundTrip(n: nat)
    ensures ParseNumber(NatToString(n)) == Some(n as real)
  {
    var ds := NatToString(n);
    NatToStringRoundTrip(n);
    PlainDigitsClean(ds);
    UnsignedDigits(ds);
    assert !IsDigit('-') && !IsDigit('+');
  }

  /** "(n)" reads back as -n. */
  lemma BracketedRoundTrip(n: nat)
    ensures ParseNumber("(" + NatToString(n) + ")") == Some(-(n as real))
  {
    var ds := NatToString(n);
    NatToStringRoundTrip(n);
    UnsignedDigits(ds);
    ParenDigitsClean(ds);
    var neg := "-" + ds;
    assert neg[1..] == ds;
    assert ParseFloat(neg) == Some(-(n as real));
  }

  /** Cleaning a run of digits changes nothing. */
  lemma PlainDigitsClean(ds: string)
    requires |ds| > 0 && AllDigits(ds)
    ensures CleanNumber(ds) == ds
  {
    TrimStartNoop(ds);
    TrimEndNoop(ds);
    assert Strip(ds) == ds;
    RemoveAllAbsent(ds, ",");
    RemoveAllAbsent(ds, " ");
    assert !StartsWith(ds, "(") by {
      assert ds[..1][0] == ds[0];
    }
  }

  /** Cleaning "(digits)" gives "-digits". */
  lemma ParenDigitsClean(ds: string)
    requires |ds| > 0 && AllDigits(ds)
    ensures CleanNumber("(" + ds + ")") == "-" + ds
  {
    var p := "(" + ds + ")";
    TrimStartNoop(p);
    TrimEndNoop(p);
    assert Strip(p) == p;
    RemoveAllAbsent(p, ",");
    RemoveAllAbsent(p, " ");
    assert p[..1] == "(";
    assert p[|p| - 1..] == ")";
    assert p[1..|p| - 1] == ds;
  }

  /**
   * A comma or a blank between two parts of a number is removed before
   * float() reads it, provided the parts leave nothing for strip() to take
   * off the ends; applied repeatedly this covers every thousands grouping.
   */
  lemma SeparatorDropped(a: string, b: string, sep: string)
    requires sep == "," || sep == " "
    requires |a| > 0 && !IsSpace(a[0]) && |b| > 0 && !IsSpace(b[|b| - 1])
    ensures CleanNumber(a + sep + b) == CleanNumber(a + b)
    ensures ParseNumber(a + sep + b) == ParseNumber(a + b)
  {
    var s := a + sep + b;
    var t := a + b;
    assert s[0] == a[0] && s[|s| - 1] == b[|b| - 1];
    assert t[0] == a[0] && t[|t| - 1] == b[|b| - 1];
    StrippedAlready(s);
    StrippedAlready(t);
    if sep == "," {
      CommaRemoved(a, b);
    } else {
      BlankRemoved(a, b);
    }
  }

  lemma StrippedAlready(s: string)
    requires |s| > 0 && !IsSpace(s[0]) && !IsSpace(s[|s| - 1])
    ensures Strip(s) == s
  {
    TrimStartNoop(s);
    TrimEndNoop(s);
  }

  lemma CommaRemoved(a: string, b: string)
    ensures RemoveAll(a + "," + b, ",") == RemoveAll(a + b, ",")
  {
    RemoveAllConcat(a + ",", b, ",");
    RemoveAllConcat(a, ",", ",");
    RemoveAllConcat(a, b, ",");
    assert RemoveAll(",", ",") == "";
    assert RemoveAll(a, ",") + "" == RemoveAll(a, ",");
  }

  lemma BlankRemoved(a: string, b: string)
    ensures RemoveAll(RemoveAll(a + " " + b, ","), " ") == RemoveAll(RemoveAll(a + b, ","), " ")
  {
    var ra := RemoveAll(a, ",");
    var rb := RemoveAll(b, ",");
    RemoveAllConcat(a + " ", b, ",");
    RemoveAllConcat(a, " ", ",");
    RemoveAllConcat(a, b, ",");
    RemoveAllAbsent(" ", ",");
    RemoveAllConcat(ra + " ", rb, " ");
    RemoveAllConcat(ra, " ", " ");
    RemoveAllConcat(ra, rb, " ");
    assert RemoveAll(" ", " ") == "";
    assert RemoveAll(ra, " ") + "" == RemoveAll(ra, " ");
  }

  /** "1,234" reads as 1234: a comma between two digit runs is a thousands separator. */
  lemma CommaGroups(a: string, b: string)
    requires |a| > 0 && AllDigits(a) && |b| > 0 && AllDigits(b)
    ensures ParseNumber(a + "," + b) == ParseNumber(a + b)
    ensures ParseNumber(a + "," + b) == Some(DigitsValue(a + b) as real)
  {
    DigitGroups(a, b, ",");
  }

  /** "1 234" reads as 1234: a blank between two digit runs is a thousands separator. */
  lemma BlankGroups(a: string, b: string)
    requires |a| > 0 && AllDigits(a) && |b| > 0 && AllDigits(b)
    ensures ParseNumber(a + " " + b) == ParseNumber(a + b)
    ensures ParseNumber(a + " " + b) == Some(DigitsValue(a + b) as real)
  {
    DigitGroups(a, b, " ");
  }

  lemma DigitGroups(a: string, b: string, sep: string)
    requires sep == "," || sep == " "
    requires |a| > 0 && AllDigits(a) && |b| > 0 && AllDigits(b)
    ensures ParseNumber(a + sep + b) == Some(DigitsValue(a + b) as real)
    ensures ParseNumber(a + b) == Some(DigitsValue(a + b) as real)
  {
    assert !IsSpace(a[0]) && !IsSpace(b[|b| - 1]);
    SeparatorDropped(a, b, sep);
    var ds := a + b;
    assert AllDigits(ds);
    PlainDigitsClean(ds);
    UnsignedDigits(ds);
    assert !IsDigit('-') && !IsDigit('+');
  }

  /** Text that is no number, and the empty string. */
  lemma NotNumbers()
    ensures ParseNumber("n/a") == None
    ensures ParseNumber("") == None
  {
    var na := "n/a";
    TrimStartNoop(na);
    TrimEndNoop(na);
    RemoveAllAbsent(na, ",");
    RemoveAllAbsent(na, " ");
    assert !StartsWith(na, "(") by {
      assert na[..1][0] == 'n';
    }
    assert CleanNumber(na) == na;
    NoDigitNoNumber(na);
    assert CleanNumber("") == "";
  }

  // ---------------------------------------------------------------------
  // The parser object

  /** The value dictionary of one statement type, from that statement's text (the regex value parsers). */
  type StatementValues = map<string, Option<real>>

  /** financial_data after updating with the parsed values of the first n types that have a statement. */
  function MergedValues(statements: map<string, FinancialStatement>, parse: (string, string) -> StatementValues, n: nat)
    : StatementValues
    requires n <= |StatementTypes|
  {
    if n == 0 then map[]
    else
      var earlier := MergedValues(statements, parse, n - 1);
      var t := StatementTypes[n - 1];
      if t in statements then earlier + parse(t, statements[t].content) else earlier
  }

  /** Every merged key comes from the parsed values of a recorded statement. */
  lemma {:induction false} MergedKeys(statements: map<string, FinancialStatement>, parse: (string, string) -> StatementValues, n: nat)
    requires n <= |StatementTypes|
    ensures forall k :: k in MergedValues(statements, parse, n) ==>
      exists t :: 0 <= t < n && StatementTypes[t] in statements
        && k in parse(StatementTypes[t], statements[StatementTypes[t]].content)
  {
    if n > 0 {
      MergedKeys(statements, parse, n - 1);
    }
  }

  class PDFFinancialParser {
    var pdfPath: string
    var textContent: string
    var pages: seq<string>
    var financialStatements: map<string, FinancialStatement>

    /** Only the three statement types are ever keys of the statements dictionary. */
    predicate Valid()
      reads this
    {
      forall k :: k in financialStatements ==> exists t :: 0 <= t < |StatementTypes| && k == StatementTypes[t]
    }

    constructor(path: string)
      ensures pdfPath == path && textContent == "" && pages == [] && financialStatements == map[]
      ensures Valid()
    {
      pdfPath := path;
      textContent := "";
      pages := [];
      financialStatements := map[];
    }

    /**
     * One of the three extraction methods, over the page texts the PDF
     * library returns: a marker block for every page with text, and that
     * text appended to the pages list.
     */
    method ExtractText(pageTexts: seq<string>) returns (text: string)
      requires Valid()
      modifies this
      ensures textContent == Dump(pageTexts, |pageTexts|) && pages == NonEmptyPages(pageTexts, |pageTexts|)
      ensures text == textContent
      ensures pdfPath == old(pdfPath) && financialStatements == old(financialStatements)
      ensures Valid()
    {
      var content := "";
      var found: seq<string> := [];
      var i: nat := 0;
      while i < |pageTexts|
        invariant i <= |pageTexts|
        invariant content == Dump(pageTexts, i) && found == NonEmptyPages(pageTexts, i)
        invariant unchanged(this)
      {
        var pageText := pageTexts[i];
        if pageText != "" {
          PageDumped(pageTexts, i);
          content := content + PageBlock(i + 1, pageText);
          found := found + [pageText];
        } else {
          PageBlank(pageTexts, i);
        }
        i := i + 1;
      }
      pages := found;
      textContent := content;
      text := content;
    }

    /** _get_page_number: the index of the first page marker that starts after position, or the marker count. */
    function GetPageNumber(position: int): (r: nat)
      reads this
      ensures r <= |PageMarkers(textContent)|
      ensures r == CountAtOrBefore(PageMarkers(textContent), position)
    {
      PageNumberCounts(PageMarkers(textContent), position);
      FirstMarkerAfter(PageMarkers(textContent), position, 0)
    }

    /** find_financial_statements: for each type, its first matching pattern at its first match. */
    method FindFinancialStatements() returns (statements: map<string, FinancialStatement>)
      modifies this
      ensures statements == Statements(textContent) && financialStatements == statements
      ensures textContent == old(textContent) && pages == old(pages) && pdfPath == old(pdfPath)
      ensures Valid()
    {
      statements := map[];
      var t := 0;
      while t < |StatementTypes|
        invariant 0 <= t <= |StatementTypes|
        invariant statements == StatementsUpTo(textContent, t)
        invariant unchanged(this)
      {
        statements := FindStatement(statements, t);
        t := t + 1;
      }
      StatementKeys(textContent, |StatementTypes|);
      financialStatements := statements;
    }

    /** The pattern loop of one statement type, which stops at the first pattern that matches. */
    method FindStatement(statements0: map<string, FinancialStatement>, t: nat)
      returns (statements: map<string, FinancialStatement>)
      requires t < |StatementTypes| && statements0 == StatementsUpTo(textContent, t)
      ensures statements == StatementsUpTo(textContent, t + 1)
    {
      statements := statements0;
      var statementType := StatementTypes[t];
      var patterns := StatementPatterns[t];
      var p := 0;
      while p < |patterns|
        invariant 0 <= p <= |patterns|
        invariant FirstPattern(textContent, patterns, p) == FirstPattern(textContent, patterns, 0)
      {
        var found := MatchFrom(textContent, patterns[p], 0);
        if found.Some? {
          var start := found.value;
          FirstPatternAt(textContent, patterns, p, start);
          StatementFound(textContent, t, p, start);
          statements := statements[statementType := StatementAt(textContent, statementType, patterns[p], start)];
          return;
        }
        p := p + 1;
      }
      StatementMissing(textContent, t, statements0);
    }

    /**
     * extract_financial_data: extract the text only while it is empty,
     * find the statements only while none are recorded, then merge the
     * values parsed from each statement in type order.
     */
    method ExtractFinancialData(pageTexts: seq<string>, parse: (string, string) -> StatementValues)
      returns (financialData: StatementValues)
      requires Valid()
      modifies this
      ensures textContent == (if old(textContent) == "" then Dump(pageTexts, |pageTexts|) else old(textContent))
      ensures pages == (if old(textContent) == "" then NonEmptyPages(pageTexts, |pageTexts|) else old(pages))
      ensures financialStatements
        == (if old(financialStatements) == map[] then Statements(textContent) else old(financialStatements))
      ensures financialData == MergedValues(financialStatements, parse, |StatementTypes|)
      ensures Valid()
    {
      if textContent == "" {
        var _ := ExtractText(pageTexts);
      }
      if financialStatements == map[] {
        var _ := FindFinancialStatements();
      }
      financialData := MergeStatementValues(parse);
    }

    /** The update loop of extract_financial_data: the parsed values of each recorded statement, in type order. */
    method MergeStatementValues(parse: (string, string) -> StatementValues) returns (financialData: StatementValues)
      ensures financialData == MergedValues(financialStatements, parse, |StatementTypes|)
    {
      financialData := map[];
      var t: nat := 0;
      while t < |StatementTypes|
        invariant t <= |StatementTypes|
        invariant financialData == MergedValues(financialStatements, parse, t)
      {
        var statementType := StatementTypes[t];
        if statementType in financialStatements {
          var data := parse(statementType, financialStatements[statementType].content);
          financialData := financialData + data;
        }
        t := t + 1;
      }
    }
  }
}
