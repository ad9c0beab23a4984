// The post-processing half of AIPDFParser: reading a page number out of a
// table-of-contents line, choosing the table-of-contents pages and the
// sections named on them, widening section pages into a page window,
// the keyword fallback, the lookup of a company's annual report, the
// extraction plan (missing file, report type, page cap), reading the
// model's JSON reply, and turning an extraction into a FinancialData
// record.  Page texts arrive already extracted; the JSON decoder and the
// model's replies are parameters.

module AiPdfParser {

  import opened Wrappers
  import opened Text
  import opened Models

  // ---------------------------------------------------------------------
  // _extract_page_number

  /** The four patterns, tried in this order: page\s+(\d+), p\.\s*(\d+), (\d+)\s*$, \.\s*(\d+)\s*$. */
  datatype PagePattern = PageWord | PDot | TrailingDigits | DotTrailing

  const PagePatterns: seq<PagePattern> := [PageWord, PDot, TrailingDigits, DotTrailing]

  predicate AllSpace(s: string)
  {
    forall i :: 0 <= i < |s| ==> IsSpace(s[i])
  }

  /** The group (\d+) starting at j: the whole digit run there. */
  function NumberAt(s: string, j: nat): Option<nat>
    requires j <= |s|
  {
    if j < |s| && IsDigit(s[j]) then Some(DigitsValue(DigitRun(s[j..]))) else None
  }

  /** (\d+)\s*$ starting at j: a digit run followed by nothing but blanks. */
  function TrailingAt(s: string, j: nat): Option<nat>
    requires j <= |s|
  {
    if j < |s| && IsDigit(s[j]) && AllSpace(s[j + |DigitRun(s[j..])|..]) then NumberAt(s, j) else None
  }

  /** The captured number when pattern p matches at position i (case-insensitively). */
  function PatternAt(p: PagePattern, s: string, i: nat): Option<nat>
    requires i <= |s|
  {
    match p
    case PageWord =>
      if i + 4 <= |s| && Lower(s[i..i + 4]) == "page" && |SpaceRun(s[i + 4..])| > 0
      then NumberAt(s, i + 4 + |SpaceRun(s[i + 4..])|) else None
    case PDot =>
      if i + 2 <= |s| && (s[i] == 'p' || s[i] == 'P') && s[i + 1] == '.'
      then NumberAt(s, i + 2 + |SpaceRun(s[i + 2..])|) else None
    case TrailingDigits => TrailingAt(s, i)
    case DotTrailing =>
      if i < |s| && s[i] == '.' then TrailingAt(s, i + 1 + |SpaceRun(s[i + 1..])|) else None
  }

  /** re.search: the match at the leftmost position at or after i. */
  function SearchFrom(p: PagePattern, s: string, i: nat): Option<nat>
    requires i <= |s|
    decreases |s| - i
  {
    if PatternAt(p, s, i).Some? then PatternAt(p, s, i)
    else if i == |s| then None
    else SearchFrom(p, s, i + 1)
  }

  /** re.search from i gives None exactly when the pattern matches at no position from i on. */
  lemma {:induction false} SearchFromNone(p: PagePattern, s: string, i: nat)
    requires i <= |s|
    ensures SearchFrom(p, s, i).None? <==> forall j: nat :: i <= j <= |s| ==> PatternAt(p, s, j).None?
    decreases |s| - i
  {
    if PatternAt(p, s, i).None? && i < |s| {
      SearchFromNone(p, s, i + 1);
    }
  }

  /** No match at i and none in [i + 1, j) means none in [i, j). */
  lemma NoMatchExtends(p: PagePattern, s: string, i: nat, j: nat)
    requires i < j <= |s| + 1 && PatternAt(p, s, i).None?
    requires forall j': nat :: i + 1 <= j' < j ==> PatternAt(p, s, j').None?
    ensures forall j': nat :: i <= j' < j ==> PatternAt(p, s, j').None?
  {
  }

  /** A match found from i is the capture at j, the leftmost matching position. */
  lemma {:induction false} SearchFromLeftmost(p: PagePattern, s: string, i: nat) returns (j: nat)
    requires i <= |s| && SearchFrom(p, s, i).Some?
    ensures i <= j <= |s| && PatternAt(p, s, j) == SearchFrom(p, s, i)
    ensures forall j': nat :: i <= j' < j ==> PatternAt(p, s, j').None?
    decreases |s| - i
  {
    if PatternAt(p, s, i).None? {
      j := SearchFromLeftmost(p, s, i + 1);
      NoMatchExtends(p, s, i, j);
    } else {
      j := i;
    }
  }

  /** None when the pattern matches nowhere from i on; otherwise the capture at the leftmost matching position. */
  lemma SearchFromMeaning(p: PagePattern, s: string, i: nat)
    requires i <= |s|
    ensures SearchFrom(p, s, i).None? <==> forall j: nat :: i <= j <= |s| ==> PatternAt(p, s, j).None?
    ensures SearchFrom(p, s, i).Some? ==> exists j: nat :: (i <= j <= |s| && PatternAt(p, s, j) == SearchFrom(p, s, i)
      && forall j': nat :: i <= j' < j ==> PatternAt(p, s, j').None?)
  {
    SearchFromNone(p, s, i);
    if SearchFrom(p, s, i).Some? {
      var j := SearchFromLeftmost(p, s, i);
    }
  }

  /** The first pattern, from the k-th on, that matches anywhere. */
  function FirstPatternMatch(s: string, k: nat): Option<nat>
    requires k <= |PagePatterns|
    decreases |PagePatterns| - k
  {
    if k == |PagePatterns| then None
    else match SearchFrom(PagePatterns[k], s, 0)
      case Some(n) => Some(n)
      case None => FirstPatternMatch(s, k + 1)
  }

  /** _extract_page_number: the number captured by the first pattern that matches the stripped line. */
  function ExtractPageNumber(line: string): (r: Option<nat>)
    ensures r.None? <==> forall m :: 0 <= m < |PagePatterns| ==> SearchFrom(PagePatterns[m], Strip(line), 0).None?
  {
    FirstPatternMatchMeaning(Strip(line), 0);
    FirstPatternMatch(Strip(line), 0)
  }

  /** None when no pattern matches; otherwise the capture of the first pattern, in list order, that matches. */
  lemma {:induction false} FirstPatternMatchMeaning(s: string, k: nat)
    requires k <= |PagePatterns|
    ensures FirstPatternMatch(s, k).None? <==> forall m :: k <= m < |PagePatterns| ==> SearchFrom(PagePatterns[m], s, 0).None?
    ensures FirstPatternMatch(s, k).Some? ==> exists m :: (k <= m < |PagePatterns|
      && SearchFrom(PagePatterns[m], s, 0) == FirstPatternMatch(s, k)
      && forall m' :: k <= m' < m ==> SearchFrom(PagePatterns[m'], s, 0).None?)
    decreases |PagePatterns| - k
  {
    if k < |PagePatterns| && SearchFrom(PagePatterns[k], s, 0).None? {
      FirstPatternMatchMeaning(s, k + 1);
    }
  }

  /** Wherever the dot pattern matches, the trailing-digits pattern matches too, a little further on. */
  lemma DotImpliesTrailing(s: string, j: nat)
    requires j <= |s| && PatternAt(DotTrailing, s, j).Some?
    ensures PatternAt(TrailingDigits, s, j + 1 + |SpaceRun(s[j + 1..])|) == PatternAt(DotTrailing, s, j)
  {
  }

  /** The fourth pattern never decides: a line it matches is already matched by the third. */
  lemma DotPatternNeverDecides(line: string)
    ensures ExtractPageNumber(line).Some? ==> exists m :: (0 <= m < 3
      && SearchFrom(PagePatterns[m], Strip(line), 0) == ExtractPageNumber(line))
  {
    var s := Strip(line);
    SearchFromNone(TrailingDigits, s, 0);
    SearchFromNone(DotTrailing, s, 0);
    forall j: nat | j <= |s| && PatternAt(DotTrailing, s, j).Some?
      ensures SearchFrom(TrailingDigits, s, 0).Some?
    {
      DotImpliesTrailing(s, j);
    }
    FirstPatternMatchMeaning(s, 0);
    assert PagePatterns[2] == TrailingDigits && PagePatterns[3] == DotTrailing;
  }

  /** A line without any digit gives no page number. */
  lemma NoDigitsNoPage(line: string)
    requires forall i :: 0 <= i < |Strip(line)| ==> !IsDigit(Strip(line)[i])
    ensures ExtractPageNumber(line).None?
  {
    var s := Strip(line);
    forall m, j: nat | 0 <= m < |PagePatterns| && j <= |s|
      ensures PatternAt(PagePatterns[m], s, j).None?
    {
    }
    forall m | 0 <= m < |PagePatterns|
      ensures SearchFrom(PagePatterns[m], s, 0).None?
    {
      SearchFromNone(PagePatterns[m], s, 0);
    }
    FirstPatternMatchMeaning(s, 0);
  }

  // ---------------------------------------------------------------------
  // find_table_of_contents

  const TocMarkers: seq<string> := ["table of contents", "contents", "index", "overview", "financial statements"]

  const SectionKeywords: seq<string> := [
    "statement of cash flows", "cash flows", "income statement", "statement of financial position",
    "balance sheet", "statement of comprehensive income", "statement of changes in equity",
    "financial statements"]

  /** The number of section keywords. */
  const KeywordCount: nat := |SectionKeywords|

  /** keyword.replace('consolidated ', '').replace('statement of ', ''). */
  function SectionName(keyword: string): string
  {
    RemoveAll(RemoveAll(keyword, "consolidated "), "statement of ")
  }

  /** The two page filters: the table-of-contents test and the financial-keyword fallback. */
  datatype PageFilter = TocFilter | KeywordFilter

  const FinancialPageKeywords: seq<string> := [
    "consolidated statement of cash flows", "cash flow from operating activities",
    "income statement", "profit and loss", "consolidated income",
    "balance sheet", "statement of financial position", "consolidated balance",
    "cash flow", "statement of cash flows", "consolidated cash flow",
    "financial statements", "notes to the financial statements"]

  /** The test of the second scan: the page names the financial statements and the income statement. */
  predicate NamesStatements(t: string)
  {
    Contains(t, "financial statements") && Contains(t, "income statement")
  }

  /**
   * Page i (0-based) is a table-of-contents page when it lies in the first
   * 50 and names a contents marker, or lies in 100..199 and names both the
   * financial statements and the income statement.
   */
  predicate Keep(f: PageFilter, texts: seq<string>, i: nat)
    requires i < |texts|
  {
    var t := Lower(texts[i]);
    match f
    case TocFilter => (i < 50 && ContainsAny(t, TocMarkers)) || (100 <= i < 200 && NamesStatements(t))
    case KeywordFilter => ContainsAny(t, FinancialPageKeywords)
  }

  /** The kept page indices below n, ascending. */
  function PagesBelow(f: PageFilter, texts: seq<string>, n: nat): (ps: seq<nat>)
    requires n <= |texts|
    ensures forall p :: 0 <= p < |ps| ==> ps[p] < n
  {
    if n == 0 then []
    else PagesBelow(f, texts, n - 1) + (if Keep(f, texts, n - 1) then [n - 1] else [])
  }

  /** The kept pages below n are exactly the pages below n that pass the filter, in ascending order. */
  lemma PagesBelowMembers(f: PageFilter, texts: seq<string>, n: nat)
    requires n <= |texts|
    ensures forall j: nat :: j in PagesBelow(f, texts, n) <==> j < n && Keep(f, texts, j)
    ensures forall p, q :: 0 <= p < q < |PagesBelow(f, texts, n)| ==> PagesBelow(f, texts, n)[p] < PagesBelow(f, texts, n)[q]
  {
    PagesBelowExactly(f, texts, n);
    PagesBelowAscending(f, texts, n);
  }

  lemma {:induction false} PagesBelowExactly(f: PageFilter, texts: seq<string>, n: nat)
    requires n <= |texts|
    ensures forall j: nat :: j in PagesBelow(f, texts, n) <==> j < n && Keep(f, texts, j)
  {
    if n > 0 {
      PagesBelowExactly(f, texts, n - 1);
      var prev := PagesBelow(f, texts, n - 1);
      var last: seq<nat> := if Keep(f, texts, n - 1) then [n - 1] else [];
      forall j: nat
        ensures j in prev + last <==> j < n && Keep(f, texts, j)
      {
        assert j in prev + last <==> j in prev || j in last;
      }
    }
  }

  lemma {:induction false} PagesBelowAscending(f: PageFilter, texts: seq<string>, n: nat)
    requires n <= |texts|
    ensures forall p, q :: 0 <= p < q < |PagesBelow(f, texts, n)| ==> PagesBelow(f, texts, n)[p] < PagesBelow(f, texts, n)[q]
  {
    if n > 0 {
      PagesBelowAscending(f, texts, n - 1);
    }
  }

  /** No table-of-contents page lies between a and b, so scanning them adds nothing. */
  lemma {:induction false} GapAddsNoTocPages(texts: seq<string>, a: nat, b: nat)
    requires a <= b <= |texts|
    requires forall i: nat :: a <= i < b ==> !Keep(TocFilter, texts, i)
    ensures PagesBelow(TocFilter, texts, b) == PagesBelow(TocFilter, texts, a)
    decreases b - a
  {
    if a < b {
      GapAddsNoTocPages(texts, a, b - 1);
    }
  }

  /** A kept page joins the kept pages. */
  lemma PageKept(f: PageFilter, texts: seq<string>, n: nat)
    requires n < |texts| && Keep(f, texts, n)
    ensures PagesBelow(f, texts, n + 1) == PagesBelow(f, texts, n) + [n]
  {
  }

  /** A page that is not kept leaves the kept pages as they are. */
  lemma PageSkipped(f: PageFilter, texts: seq<string>, n: nat)
    requires n < |texts| && !Keep(f, texts, n)
    ensures PagesBelow(f, texts, n + 1) == PagesBelow(f, texts, n)
  {
  }

  /** The first scan of find_table_of_contents: pages below min(50, n) naming a contents marker. */
  method ScanFrontPages(texts: seq<string>) returns (tocPages: seq<nat>)
    ensures tocPages == PagesBelow(TocFilter, texts, if |texts| < 50 then |texts| else 50)
  {
    tocPages := [];
    var limit := if |texts| < 50 then |texts| else 50;
    var pageNum: nat := 0;
    while pageNum < limit
      invariant pageNum <= limit
      invariant tocPages == PagesBelow(TocFilter, texts, pageNum)
    {
      var text := Lower(texts[pageNum]);
      if ContainsAny(text, TocMarkers) {
        PageKept(TocFilter, texts, pageNum);
        tocPages := tocPages + [pageNum];
      } else {
        PageSkipped(TocFilter, texts, pageNum);
      }
      pageNum := pageNum + 1;
    }
  }

  /** The second scan: pages 100 to min(200, n) naming both the financial statements and the income statement. */
  method ScanBackPages(texts: seq<string>, front: seq<nat>) returns (tocPages: seq<nat>)
    requires |texts| > 100
    requires front == PagesBelow(TocFilter, texts, 100)
    ensures tocPages == PagesBelow(TocFilter, texts, if |texts| < 200 then |texts| else 200)
  {
    tocPages := front;
    var limit := if |texts| < 200 then |texts| else 200;
    var pageNum: nat := 100;
    while pageNum < limit
      invariant 100 <= pageNum <= limit
      invariant tocPages == PagesBelow(TocFilter, texts, pageNum)
    {
      var text := Lower(texts[pageNum]);
      if NamesStatements(text) {
        PageKept(TocFilter, texts, pageNum);
        tocPages := tocPages + [pageNum];
      } else {
        PageSkipped(TocFilter, texts, pageNum);
      }
      pageNum := pageNum + 1;
    }
  }

  /** The two scans of find_table_of_contents: pages below min(50, n), then pages 100 to min(200, n). */
  method TocPages(texts: seq<string>) returns (tocPages: seq<nat>)
    ensures tocPages == PagesBelow(TocFilter, texts, |texts|)
    ensures forall p :: 0 <= p < |tocPages| ==> tocPages[p] < 50 || 100 <= tocPages[p] < 200
  {
    var n := |texts|;
    tocPages := ScanFrontPages(texts);
    if n > 50 {
      GapAddsNoTocPages(texts, 50, if n < 100 then n else 100);
    }
    if n > 100 {
      tocPages := ScanBackPages(texts, tocPages);
    }
    if n > 200 {
      GapAddsNoTocPages(texts, 200, n);
    }
    PagesBelowMembers(TocFilter, texts, n);
    assert forall p :: 0 <= p < |tocPages| ==> tocPages[p] in tocPages;
  }

  /** A section found on a contents line: its name and its page. */
  type Update = (string, nat)

  /** The update keyword number k makes on a line: when the stripped lower-cased line holds it and a non-zero page number is found. */
  function KeywordUpdate(line: string, k: nat): (us: seq<Update>)
    requires k < |SectionKeywords|
    ensures |us| <= 1
    ensures forall u :: u in us ==> u.1 >= 1 && u.0 == SectionName(SectionKeywords[k])
  {
    if Contains(Strip(Lower(line)), SectionKeywords[k]) then
      match ExtractPageNumber(line)
      case Some(p) => if p != 0 then [(SectionName(SectionKeywords[k]), p)] else []
      case None => []
    else []
  }

  /** The updates of the first k keywords on one line. */
  function LineUpdates(line: string, k: nat): (us: seq<Update>)
    requires k <= |SectionKeywords|
  {
    if k == 0 then [] else LineUpdates(line, k - 1) + KeywordUpdate(line, k - 1)
  }

  /** The updates of all eight keywords on one line. */
  function AllKeywordUpdates(line: string): seq<Update>
  {
    LineUpdates(line, KeywordCount)
  }

  /** The updates of the first n lines of a page. */
  function LinesUpdates(lines: seq<string>, n: nat): seq<Update>
    requires n <= |lines|
  {
    if n == 0 then [] else LinesUpdates(lines, n - 1) + AllKeywordUpdates(lines[n - 1])
  }

  function PageUpdates(text: string): seq<Update>
  {
    var lines := Split(text, '\n');
    LinesUpdates(lines, |lines|)
  }

  /** The updates of the first n contents pages. */
  function TocUpdates(texts: seq<string>, tocPages: seq<nat>, n: nat): seq<Update>
    requires n <= |tocPages| && forall p :: 0 <= p < |tocPages| ==> tocPages[p] < |texts|
  {
    if n == 0 then [] else TocUpdates(texts, tocPages, n - 1) + PageUpdates(texts[tocPages[n - 1]])
  }

  /** dict[name] = page, performed in order. */
  function ApplyTo(m: map<string, nat>, us: seq<Update>): map<string, nat>
  {
    if us == [] then m else ApplyTo(m, us[..|us| - 1])[us[|us| - 1].0 := us[|us| - 1].1]
  }

  lemma {:induction false} ApplyConcat(m: map<string, nat>, a: seq<Update>, b: seq<Update>)
    ensures ApplyTo(m, a + b) == ApplyTo(ApplyTo(m, a), b)
    decreases |b|
  {
    if b == [] {
      assert a + b == a;
    } else {
      assert (a + b)[..|a + b| - 1] == a + b[..|b| - 1];
      ApplyConcat(m, a, b[..|b| - 1]);
    }
  }

  /** A later update of a name overwrites every earlier one. */
  lemma {:induction false} LastUpdateWins(m: map<string, nat>, us: seq<Update>, i: nat)
    requires i < |us| && forall j :: i < j < |us| ==> us[j].0 != us[i].0
    ensures us[i].0 in ApplyTo(m, us) && ApplyTo(m, us)[us[i].0] == us[i].1
  {
    if i < |us| - 1 {
      LastUpdateWins(m, us[..|us| - 1], i);
    }
  }

  /** Every update names one of the section names and a page of at least 1. */
  predicate GoodUpdates(us: seq<Update>)
  {
    forall u :: u in us ==> u.1 >= 1 && exists k :: 0 <= k < |SectionKeywords| && u.0 == SectionName(SectionKeywords[k])
  }

  lemma {:induction false} LineUpdatesGood(line: string, k: nat)
    requires k <= |SectionKeywords|
    ensures GoodUpdates(LineUpdates(line, k))
  {
    if k > 0 {
      LineUpdatesGood(line, k - 1);
    }
  }

  lemma {:induction false} LinesUpdatesGood(lines: seq<string>, n: nat)
    requires n <= |lines|
    ensures GoodUpdates(LinesUpdates(lines, n))
  {
    if n > 0 {
      LinesUpdatesGood(lines, n - 1);
      LineUpdatesGood(lines[n - 1], |SectionKeywords|);
    }
  }

  lemma {:induction false} TocUpdatesGood(texts: seq<string>, tocPages: seq<nat>, n: nat)
    requires n <= |tocPages| && forall p :: 0 <= p < |tocPages| ==> tocPages[p] < |texts|
    ensures GoodUpdates(TocUpdates(texts, tocPages, n))
  {
    if n > 0 {
      TocUpdatesGood(texts, tocPages, n - 1);
      var lines := Split(texts[tocPages[n - 1]], '\n');
      LinesUpdatesGood(lines, |lines|);
    }
  }

  lemma {:induction false} ApplyGood(us: seq<Update>)
    requires GoodUpdates(us)
    ensures forall name :: name in ApplyTo(map[], us) ==>
      (ApplyTo(map[], us)[name] >= 1
       && exists k :: 0 <= k < |SectionKeywords| && name == SectionName(SectionKeywords[k]))
  {
    if us != [] {
      assert us[|us| - 1] in us;
      ApplyGood(us[..|us| - 1]);
    }
  }

  /** The sections of the contents pages, in the order the source visits them. */
  function TocSections(texts: seq<string>): map<string, nat>
  {
    var pages := PagesBelow(TocFilter, texts, |texts|);
    ApplyTo(map[], TocUpdates(texts, pages, |pages|))
  }

  /** Every section found is one of the eight section names and lies on a page of at least 1. */
  lemma TocSectionsAreNamedPages(texts: seq<string>)
    ensures forall name :: name in TocSections(texts) ==>
      (TocSections(texts)[name] >= 1
       && exists k :: 0 <= k < |SectionKeywords| && name == SectionName(SectionKeywords[k]))
  {
    var pages := PagesBelow(TocFilter, texts, |texts|);
    TocUpdatesGood(texts, pages, |pages|);
    ApplyGood(TocUpdates(texts, pages, |pages|));
  }

  lemma ApplySmall(m: map<string, nat>, us: seq<Update>)
    requires |us| <= 1
    ensures ApplyTo(m, us) == if us == [] then m else m[us[0].0 := us[0].1]
  {
    if us != [] {
      assert us[..0] == [];
    }
  }

  /** One keyword on one line: record the line's page number under the section's name when the line holds the keyword. */
  method ScanKeyword(sections0: map<string, nat>, line: string, lineLower: string, k: nat)
    returns (sections: map<string, nat>)
    requires k < |SectionKeywords| && lineLower == Strip(Lower(line))
    ensures sections == ApplyTo(sections0, KeywordUpdate(line, k))
  {
    ApplySmall(sections0, KeywordUpdate(line, k));
    sections := sections0;
    var keyword := SectionKeywords[k];
    if Contains(lineLower, keyword) {
      var pageNum := ExtractPageNumber(line);
      if pageNum.Some? && pageNum.value != 0 {
        var sectionName := SectionName(keyword);
        sections := sections[sectionName := pageNum.value];
      }
    }
  }

  /** One line: for each section keyword it holds, record the line's page number when that is not 0. */
  method ScanLine(sections0: map<string, nat>, line: string) returns (sections: map<string, nat>)
    ensures sections == ApplyTo(sections0, AllKeywordUpdates(line))
  {
    sections := sections0;
    var lineLower := Strip(Lower(line));
    var k := 0;
    while k < KeywordCount
      invariant 0 <= k <= KeywordCount
      invariant sections == ApplyTo(sections0, LineUpdates(line, k))
    {
      ApplyConcat(sections0, LineUpdates(line, k), KeywordUpdate(line, k));
      sections := ScanKeyword(sections, line, lineLower, k);
      k := k + 1;
    }
  }

  /** Scanning line i after the first i lines gives the updates of the first i + 1 lines. */
  lemma LinesStep(m: map<string, nat>, lines: seq<string>, i: nat, before: map<string, nat>, after: map<string, nat>)
    requires i < |lines|
    requires before == ApplyTo(m, LinesUpdates(lines, i))
    requires after == ApplyTo(before, AllKeywordUpdates(lines[i]))
    ensures after == ApplyTo(m, LinesUpdates(lines, i + 1))
  {
    ApplyConcat(m, LinesUpdates(lines, i), AllKeywordUpdates(lines[i]));
  }

  /** The lines of one contents page, in order. */
  method ScanLines(sections0: map<string, nat>, lines: seq<string>) returns (sections: map<string, nat>)
    ensures sections == ApplyTo(sections0, LinesUpdates(lines, |lines|))
  {
    sections := sections0;
    var i := 0;
    while i < |lines|
      invariant 0 <= i <= |lines|
      invariant sections == ApplyTo(sections0, LinesUpdates(lines, i))
    {
      var next := ScanLine(sections, lines[i]);
      LinesStep(sections0, lines, i, sections, next);
      sections := next;
      i := i + 1;
    }
  }

  /** One contents page: every line in order. */
  method ScanPage(sections0: map<string, nat>, text: string) returns (sections: map<string, nat>)
    ensures sections == ApplyTo(sections0, PageUpdates(text))
  {
    sections := ScanLines(sections0, Split(text, '\n'));
  }

  /** Scanning contents page i after the first i gives the updates of the first i + 1. */
  lemma TocStep(texts: seq<string>, tocPages: seq<nat>, i: nat, before: map<string, nat>, after: map<string, nat>)
    requires i < |tocPages| && forall p :: 0 <= p < |tocPages| ==> tocPages[p] < |texts|
    requires before == ApplyTo(map[], TocUpdates(texts, tocPages, i))
    requires after == ApplyTo(before, PageUpdates(texts[tocPages[i]]))
    ensures after == ApplyTo(map[], TocUpdates(texts, tocPages, i + 1))
  {
    ApplyConcat(map[], TocUpdates(texts, tocPages, i), PageUpdates(texts[tocPages[i]]));
  }

  /** find_table_of_contents: the sections named on the contents pages; later findings overwrite earlier ones. */
  method FindTableOfContents(texts: seq<string>) returns (sections: map<string, nat>)
    ensures sections == TocSections(texts)
  {
    var tocPages := TocPages(texts);
    sections := map[];
    if tocPages == [] {
      return;
    }
    var i := 0;
    while i < |tocPages|
      invariant 0 <= i <= |tocPages|
      invariant sections == ApplyTo(map[], TocUpdates(texts, tocPages, i))
    {
      var next := ScanPage(sections, texts[tocPages[i]]);
      TocStep(texts, tocPages, i, sections, next);
      sections := next;
      i := i + 1;
    }
  }

  // ---------------------------------------------------------------------
  // _ai_find_financial_sections and _parse_ai_response: the JSON slice

  /** str.find(c). */
  function Find(s: string, c: char): (r: int)
    ensures r == -1 <==> forall i :: 0 <= i < |s| ==> s[i] != c
    ensures r != -1 ==> 0 <= r < |s| && s[r] == c && forall i :: 0 <= i < r ==> s[i] != c
  {
    if s == [] then -1
    else if s[0] == c then 0
    else
      var r := Find(s[1..], c);
      if r == -1 then -1 else r + 1
  }

  /** str.rfind(c): never below -1, so rfind(c) + 1 is never -1. */
  function RFind(s: string, c: char): (r: int)
    ensures -1 <= r < |s|
    ensures r == -1 <==> forall i :: 0 <= i < |s| ==> s[i] != c
    ensures r != -1 ==> s[r] == c && forall i :: r < i < |s| ==> s[i] != c
  {
    if s == [] then -1
    else if s[|s| - 1] == c then |s| - 1
    else RFind(s[..|s| - 1], c)
  }

  /**
   * text[find('{') : rfind('}') + 1]: from the first '{' through the last
   * '}', or empty when no '}' follows the first '{'.
   */
  function BraceSlice(text: string): (j: string)
    requires Find(text, '{') != -1
    ensures RFind(text, '}') > Find(text, '{') ==>
      (j == text[Find(text, '{')..RFind(text, '}') + 1] && j[0] == '{' && j[|j| - 1] == '}')
    ensures RFind(text, '}') < Find(text, '{') ==> j == ""
  {
    var start := Find(text, '{');
    var end := RFind(text, '}') + 1;
    if start < end then text[start..end] else ""
  }

  /**
   * _parse_ai_response: no '{' gives {}; otherwise the slice is decoded
   * (None for a decode error), and a decoded object gets the two metadata
   * keys.  Anything else decoded (a list, a string, a number) fails on the
   * key assignment, which the broad except turns into {}.
   */
  function ParseAiResponse(text: string, loads: string -> Option<Value>): (r: Record)
    ensures Find(text, '{') == -1 ==> r == map[]
    ensures r == map[] <==> Find(text, '{') == -1 || !(loads(BraceSlice(text)).Some? && loads(BraceSlice(text)).value.Obj?)
    ensures r != map[] ==>
      (Find(text, '{') != -1 && loads(BraceSlice(text)).Some? && loads(BraceSlice(text)).value.Obj?
       && "source" in r && "extraction_method" in r
       && r["source"] == Str("ai_pdf_parser") && r["extraction_method"] == Str("openai_gpt4_vision")
       && r.Keys == loads(BraceSlice(text)).value.fields.Keys + {"source", "extraction_method"}
       && forall k :: k in loads(BraceSlice(text)).value.fields && k != "source" && k != "extraction_method" ==>
            r[k] == loads(BraceSlice(text)).value.fields[k])
  {
    if Find(text, '{') == -1 then map[]
    else match loads(BraceSlice(text))
      case Some(Obj(data)) =>
        var tagged := data["source" := Str("ai_pdf_parser")]["extraction_method" := Str("openai_gpt4_vision")];
        assert "source" in tagged;
        tagged
      case _ => map[]
  }

  /** The JSON fields of the contents reply and the section names they become. */
  const AiSectionFields: seq<(string, string)> := [
    ("income_statement", "income statement"), ("balance_sheet", "balance sheet"),
    ("cash_flow_statement", "cash flow statement"), ("comprehensive_income", "comprehensive income"),
    ("changes_in_equity", "changes in equity")]

  /** The sections among the first k fields whose value is truthy: present, not null, not 0. */
  predicate Truthy(obj: map<string, Option<int>>, field: string)
  {
    field in obj && obj[field].Some? && obj[field].value != 0
  }

  function SectionsFrom(obj: map<string, Option<int>>, k: nat): (ss: seq<(string, int)>)
    requires k <= |AiSectionFields|
    ensures |ss| <= k
    ensures forall j :: 0 <= j < k && Truthy(obj, AiSectionFields[j].0) ==>
      (AiSectionFields[j].1, obj[AiSectionFields[j].0].value) in ss
    ensures forall e :: e in ss ==> exists j :: (0 <= j < k && Truthy(obj, AiSectionFields[j].0)
      && e == (AiSectionFields[j].1, obj[AiSectionFields[j].0].value))
  {
    if k == 0 then []
    else
      var prev := SectionsFrom(obj, k - 1);
      var field := AiSectionFields[k - 1].0;
      var here := if Truthy(obj, field) then [(AiSectionFields[k - 1].1, obj[field].value)] else [];
      prev + here
  }

  /**
   * _ai_find_financial_sections after the model's reply: no reply (the call
   * raised) or no '{' gives no sections, as does a reply that does not
   * decode to an object; otherwise the truthy fields in their fixed order.
   */
  function AiFindFinancialSections(reply: Option<string>, loads: string -> Option<map<string, Option<int>>>): (ss: seq<(string, int)>)
    ensures reply.None? ==> ss == []
    ensures reply.Some? && Find(reply.value, '{') == -1 ==> ss == []
    ensures reply.Some? && Find(reply.value, '{') != -1 && loads(BraceSlice(reply.value)).None? ==> ss == []
    ensures reply.Some? && Find(reply.value, '{') != -1 && loads(BraceSlice(reply.value)).Some? ==>
      ss == SectionsFrom(loads(BraceSlice(reply.value)).value, |AiSectionFields|)
    ensures forall e :: e in ss ==> e.1 != 0
  {
    if reply.None? || Find(reply.value, '{') == -1 then []
    else match loads(BraceSlice(reply.value))
      case None => []
      case Some(obj) => SectionsFrom(obj, |AiSectionFields|)
  }

  // ---------------------------------------------------------------------
  // find_financial_statement_pages and _find_financial_pages_by_keywords

  /** x is among the 0-based pages p-2 .. p+1 of some section page p. */
  predicate InWindow(sections: seq<(string, int)>, x: int)
  {
    exists i :: 0 <= i < |sections| && sections[i].1 - 2 <= x <= sections[i].1 + 1
  }

  lemma InWindowSnoc(sections: seq<(string, int)>, i: nat, x: int)
    requires i < |sections|
    ensures InWindow(sections[..i + 1], x) <==> InWindow(sections[..i], x) || sections[i].1 - 2 <= x <= sections[i].1 + 1
  {
    if InWindow(sections[..i + 1], x) && !(sections[i].1 - 2 <= x <= sections[i].1 + 1) {
      var j :| 0 <= j < i + 1 && sections[..i + 1][j].1 - 2 <= x <= sections[..i + 1][j].1 + 1;
      assert sections[..i][j] == sections[j];
    }
    if InWindow(sections[..i], x) {
      var j :| 0 <= j < i && sections[..i][j].1 - 2 <= x <= sections[..i][j].1 + 1;
      assert sections[..i + 1][j] == sections[j];
    }
  }

  /** sorted(set(...)) for values in [lo, hi): the members in ascending order. */
  function AscendingMembers(s: set<int>, lo: int, hi: int): (r: seq<int>)
    ensures forall x :: x in r <==> lo <= x < hi && x in s
    ensures forall p, q :: 0 <= p < q < |r| ==> r[p] < r[q]
    decreases hi - lo
  {
    if lo >= hi then []
    else
      var rest := AscendingMembers(s, lo + 1, hi);
      assert forall q :: 0 <= q < |rest| ==> rest[q] in rest;
      (if lo in s then [lo] else []) + rest
  }

  /** _find_financial_pages_by_keywords: every page whose lower-cased text holds a financial keyword. */
  method FindFinancialPagesByKeywords(texts: seq<string>) returns (financialPages: seq<nat>)
    ensures financialPages == PagesBelow(KeywordFilter, texts, |texts|)
  {
    financialPages := [];
    var pageNum: nat := 0;
    while pageNum < |texts|
      invariant pageNum <= |texts|
      invariant financialPages == PagesBelow(KeywordFilter, texts, pageNum)
    {
      var text := Lower(texts[pageNum]);
      if ContainsAny(text, FinancialPageKeywords) {
        PageKept(KeywordFilter, texts, pageNum);
        financialPages := financialPages + [pageNum];
      } else {
        PageSkipped(KeywordFilter, texts, pageNum);
      }
      pageNum := pageNum + 1;
    }
  }

  /**
   * find_financial_statement_pages: with sections, every existing 0-based
   * page within p-2 .. p+1 of a section page p, ascending and without
   * repeats; with none, the keyword fallback.
   */
  method FindFinancialStatementPages(sections: seq<(string, int)>, texts: seq<string>) returns (pages: seq<int>)
    ensures |sections| > 0 ==> forall x :: x in pages <==> 0 <= x < |texts| && InWindow(sections, x)
    ensures |sections| > 0 ==> forall p, q :: 0 <= p < q < |pages| ==> pages[p] < pages[q]
    ensures |sections| == 0 ==> pages == PagesBelow(KeywordFilter, texts, |texts|)
  {
    var n := |texts|;
    if |sections| > 0 {
      var financialPages: seq<int> := [];
      var i := 0;
      while i < |sections|
        invariant 0 <= i <= |sections|
        invariant forall x :: x in financialPages <==> 0 <= x < n && InWindow(sections[..i], x)
      {
        var pageNum := sections[i].1;
        var offset := -1;
        while offset < 3
          invariant -1 <= offset <= 3
          invariant forall x :: x in financialPages <==>
            (0 <= x < n && (InWindow(sections[..i], x) || pageNum - 2 <= x < pageNum - 1 + offset))
        {
          var adjustedPage := pageNum - 1 + offset;
          if 0 <= adjustedPage < n {
            financialPages := financialPages + [adjustedPage];
          }
          offset := offset + 1;
        }
        forall x
          ensures InWindow(sections[..i + 1], x) <==> InWindow(sections[..i], x) || pageNum - 2 <= x <= pageNum + 1
        {
          InWindowSnoc(sections, i, x);
        }
        i := i + 1;
      }
      assert sections[..i] == sections;
      pages := AscendingMembers(set x | x in financialPages, 0, n);
    } else {
      pages := FindFinancialPagesByKeywords(texts);
    }
  }

  // ---------------------------------------------------------------------
  // _download_annual_report: which configured report to use

  datatype ReportInfo = ReportInfo(filename: string, downloadUrl: string)

  /** The configured reports: company name, then "annual_report_<year>", then the report. */
  type ReportUrls = map<string, map<string, ReportInfo>>

  /** The name variations, in the order they are tried. */
  function CompanyVariations(company: string): (vs: seq<string>)
    ensures |vs| == 6 && vs[0] == company
  {
    [company, Upper(company), Lower(company), RemoveAll(company, " "),
     ReplaceChar(company, ' ', '_'), ReplaceChar(company, ' ', '-')]
  }

  function ReportKey(year: nat): string
  {
    "annual_report_" + NatToString(year)
  }

  predicate HasReport(urls: ReportUrls, name: string, key: string)
  {
    name in urls && key in urls[name]
  }

  /** The report of the first variation that has one for the year; None when no variation has. */
  method FindReportInfo(urls: ReportUrls, company: string, year: nat) returns (reportInfo: Option<ReportInfo>)
    ensures reportInfo.None? <==> forall i :: 0 <= i < 6 ==> !HasReport(urls, CompanyVariations(company)[i], ReportKey(year))
    ensures reportInfo.Some? ==> exists i :: (0 <= i < 6 && HasReport(urls, CompanyVariations(company)[i], ReportKey(year))
      && reportInfo.value == urls[CompanyVariations(company)[i]][ReportKey(year)]
      && forall j :: 0 <= j < i ==> !HasReport(urls, CompanyVariations(company)[j], ReportKey(year)))
    ensures HasReport(urls, company, ReportKey(year)) ==> reportInfo == Some(urls[company][ReportKey(year)])
  {
    var companyVariations := CompanyVariations(company);
    var key := ReportKey(year);
    reportInfo := None;
    var i := 0;
    while i < |companyVariations| && reportInfo.None?
      invariant 0 <= i <= 6
      invariant reportInfo.None? ==> forall j :: 0 <= j < i ==> !HasReport(urls, companyVariations[j], key)
      invariant reportInfo.Some? ==> (0 < i && HasReport(urls, companyVariations[i - 1], key)
        && reportInfo.value == urls[companyVariations[i - 1]][key]
        && forall j :: 0 <= j < i - 1 ==> !HasReport(urls, companyVariations[j], key))
    {
      var variation := companyVariations[i];
      if variation in urls {
        if key in urls[variation] {
          reportInfo := Some(urls[variation][key]);
        } else {
          reportInfo := None;
        }
      }
      i := i + 1;
    }
  }

  // ---------------------------------------------------------------------
  // _extract_financial_data_from_pdf_file: the extraction plan

  const QuarterlyTerms: seq<string> := ["q1", "q2", "q3", "q4", "quarterly", "interim"]

  /** The report type told to the model, decided by the file path alone. */
  function ReportType(pdfPath: string): (t: string)
    ensures t == "quarterly" || t == "annual"
    ensures t == "quarterly" <==> ContainsAny(Lower(pdfPath), QuarterlyTerms)
  {
    if ContainsAny(Lower(pdfPath), QuarterlyTerms) then "quarterly" else "annual"
  }

  /** What happens before the model is asked: no pages found, or a request on some pages. */
  datatype Extraction = NoPages | Prompted(pages: seq<int>, reportType: string)

  /**
   * A missing file is a FileNotFoundError; no financial pages gives the
   * empty result; otherwise at most the first 15 pages are sent.
   */
  function PlanExtraction(pathExists: bool, pdfPath: string, financialPages: seq<int>): (r: Result<Extraction, Error>)
    ensures r == Err(FileNotFound(pdfPath)) <==> !pathExists
    ensures r.Err? ==> r == Err(FileNotFound(pdfPath))
    ensures pathExists && financialPages == [] ==> r == Ok(NoPages)
    ensures r.Ok? && r.value.Prompted? ==>
      (financialPages != [] && |r.value.pages| == (if |financialPages| < 15 then |financialPages| else 15)
       && r.value.pages == financialPages[..|r.value.pages|] && r.value.reportType == ReportType(pdfPath))
  {
    if !pathExists then Err(FileNotFound(pdfPath))
    else if financialPages == [] then Ok(NoPages)
    else Ok(Prompted(financialPages[..if |financialPages| < 15 then |financialPages| else 15], ReportType(pdfPath)))
  }

  /** The extraction result: {} without pages or when the model call raised, else the parsed reply. */
  function ExtractFinancialDataFromPdfFile(pathExists: bool, pdfPath: string, financialPages: seq<int>,
                                           reply: Option<string>, loads: string -> Option<Value>): (r: Result<Record, Error>)
    ensures r.Err? <==> !pathExists
    ensures pathExists && financialPages == [] ==> r == Ok(map[])
    ensures pathExists && financialPages != [] && reply.None? ==> r == Ok(map[])
    ensures pathExists && financialPages != [] && reply.Some? ==> r == Ok(ParseAiResponse(reply.value, loads))
    ensures r.Ok? && r.value != map[] ==>
      (financialPages != [] && reply.Some? && "source" in r.value && r.value["source"] == Str("ai_pdf_parser"))
  {
    match PlanExtraction(pathExists, pdfPath, financialPages)
    case Err(e) => Err(e)
    case Ok(NoPages) => Ok(map[])
    case Ok(Prompted(_, _)) => if reply.None? then Ok(map[]) else Ok(ParseAiResponse(reply.value, loads))
  }

  // ---------------------------------------------------------------------
  // convert_to_financial_data

  /** The defaults for absent amounts: one million shares, 0 for every other amount. */
  function AiDefault(k: string): Value
  {
    if k == "shares_cur" || k == "shares_prev" then Num(1000000.0) else Num(0.0)
  }

  /** `extracted.get('fiscal_years', {}).get('current', '2024')`; None when fiscal_years is not a dictionary. */
  function ReportDateOf(e: Record): (r: Option<Value>)
    ensures "fiscal_years" !in e ==> r == Some(Str("2024"))
    ensures r.None? <==> "fiscal_years" in e && !e["fiscal_years"].Obj?
  {
    if "fiscal_years" !in e then Some(Str("2024"))
    else match e["fiscal_years"]
      case Obj(fy) => Some(Get(fy, "current", Str("2024")))
      case _ => None
  }

  /** What the converted record holds under field k: a provenance value, or the extracted amount or its default. */
  function ConvertedField(e: Record, sourceUrl: Value, reportDate: Value, now: string, k: string): Value
  {
    if k == "source_url" then sourceUrl
    else if k == "report_date" then reportDate
    else if k == "data_collected_at" then Str(now)
    else Get(e, k, AiDefault(k))
  }

  /** The 21-field dictionary, built field by field. */
  function Converted(e: Record, sourceUrl: Value, reportDate: Value, now: string): (r: Record)
    ensures r.Keys == set k | k in AllFields
  {
    map k | k in AllFields :: ConvertedField(e, sourceUrl, reportDate, now, k)
  }

  /** Amount i of the converted record is the extracted amount, or its default when absent. */
  lemma ConvertedAmount(e: Record, sourceUrl: Value, reportDate: Value, now: string, i: nat)
    requires i < |NumericFields|
    ensures NumericFields[i] in Converted(e, sourceUrl, reportDate, now)
    ensures Converted(e, sourceUrl, reportDate, now)[NumericFields[i]] == Get(e, NumericFields[i], AiDefault(NumericFields[i]))
  {
    AmountNotProvenance(i);
    assert AllFields[i] == NumericFields[i];
  }

  /**
   * The converted record: every amount as extracted or defaulted, and the
   * path, the report date and the time under the three provenance keys.
   */
  lemma ConvertedFields(e: Record, sourceUrl: Value, reportDate: Value, now: string)
    ensures forall i :: 0 <= i < |NumericFields| ==>
      NumericFields[i] in Converted(e, sourceUrl, reportDate, now)
      && Converted(e, sourceUrl, reportDate, now)[NumericFields[i]] == Get(e, NumericFields[i], AiDefault(NumericFields[i]))
    ensures (var r := Converted(e, sourceUrl, reportDate, now);
      "source_url" in r && "report_date" in r && "data_collected_at" in r
      && r["source_url"] == sourceUrl && r["report_date"] == reportDate && r["data_collected_at"] == Str(now))
  {
    forall i | 0 <= i < |NumericFields|
      ensures NumericFields[i] in Converted(e, sourceUrl, reportDate, now)
      ensures Converted(e, sourceUrl, reportDate, now)[NumericFields[i]] == Get(e, NumericFields[i], AiDefault(NumericFields[i]))
    {
      ConvertedAmount(e, sourceUrl, reportDate, now, i);
    }
    assert AllFields[|NumericFields|] == "source_url";
    assert AllFields[|NumericFields| + 1] == "report_date";
    assert AllFields[|NumericFields| + 2] == "data_collected_at";
  }

  /** The extraction dictionary after the defaulting loop: absent amounts added, everything else kept. */
  function Defaulted(e: Record): (r: Record)
    ensures r.Keys == e.Keys + set k | k in NumericFields
    ensures forall k | k in e :: r[k] == e[k]
    ensures forall k | k in r && k !in e :: r[k] == AiDefault(k)
  {
    map k | k in e.Keys + (set k | k in NumericFields) :: if k in e then e[k] else AiDefault(k)
  }

  /**
   * convert_to_financial_data.  The caller's dictionary is updated in place
   * (defaults, source_url, and, when the report date can be read,
   * report_date and data_collected_at); the record is built from its 21
   * FinancialData keys only.  A fiscal_years value that is not a dictionary
   * raises AttributeError, after the defaults and source_url are written.
   */
  method ConvertToFinancialData(extracted: Record, pdfPath: string, now: string)
    returns (updated: Record, r: Result<FinancialData, Error>)
    ensures ReportDateOf(extracted).None? ==>
      r == Err(AttributeError) && updated == Defaulted(extracted)["source_url" := Str(pdfPath)]
    ensures ReportDateOf(extracted).Some? ==>
      (r == ToFinancialData(Converted(extracted, Str(pdfPath), ReportDateOf(extracted).value, now))
       && updated == Defaulted(extracted)["source_url" := Str(pdfPath)]
            ["report_date" := ReportDateOf(extracted).value]["data_collected_at" := Str(now)])
  {
    var data := FillDefaults(extracted);
    data := data["source_url" := Str(pdfPath)];
    assert "fiscal_years" in data <==> "fiscal_years" in extracted;
    assert "fiscal_years" in data ==> data["fiscal_years"] == extracted["fiscal_years"];
    var reportDate := ReportDateOf(data);
    assert reportDate == ReportDateOf(extracted);
    if reportDate.None? {
      updated, r := data, Err(AttributeError);
      return;
    }
    data := data["report_date" := reportDate.value]["data_collected_at" := Str(now)];
    var filtered := map k | k in data && k in AllFields :: data[k];
    FilteredIsConverted(extracted, pdfPath, reportDate.value, now);
    updated, r := data, ToFinancialData(filtered);
  }

  /**
   * The state of the defaulting loop before amount key i: the keys are the
   * extraction's and the first i amount keys, the extraction's values are
   * kept, and every added key holds its default.
   */
  predicate DefaultedUpTo(extracted: Record, data: Record, i: nat)
    requires i <= |NumericFields|
  {
    && data.Keys == extracted.Keys + (set j | 0 <= j < i :: NumericFields[j])
    && (forall k | k in extracted :: data[k] == extracted[k])
    && (forall k | k in data && k !in extracted :: data[k] == AiDefault(k))
  }

  /** One iteration of the defaulting loop: an absent key i gets its default, a present one is left alone. */
  lemma DefaultStep(extracted: Record, data: Record, i: nat)
    requires i < |NumericFields| && DefaultedUpTo(extracted, data, i)
    ensures DefaultedUpTo(extracted,
      if NumericFields[i] in data then data else data[NumericFields[i] := AiDefault(NumericFields[i])], i + 1)
  {
    FieldSetStep(i);
  }

  /** The defaulting loop: each of the 18 amount keys that is absent gets its default. */
  method FillDefaults(extracted: Record) returns (data: Record)
    ensures data == Defaulted(extracted)
  {
    data := extracted;
    var i: nat := 0;
    while i < |NumericFields|
      invariant i <= |NumericFields|
      invariant DefaultedUpTo(extracted, data, i)
    {
      var key := NumericFields[i];
      DefaultStep(extracted, data, i);
      if key !in data {
        data := data[key := AiDefault(key)];
      }
      i := i + 1;
    }
    DefaultedByLoop(extracted, data);
  }

  /** The first i + 1 amount keys are the first i and key i. */
  lemma FieldSetStep(i: nat)
    requires i < |NumericFields|
    ensures (set j | 0 <= j < i + 1 :: NumericFields[j]) == (set j | 0 <= j < i :: NumericFields[j]) + {NumericFields[i]}
  {
  }

  /** What the defaulting loop keeps at its end is exactly the defaulted dictionary. */
  lemma DefaultedByLoop(extracted: Record, data: Record)
    requires DefaultedUpTo(extracted, data, |NumericFields|)
    ensures data == Defaulted(extracted)
  {
    assert (set j | 0 <= j < |NumericFields| :: NumericFields[j]) == set k | k in NumericFields;
  }

  /** A field that is not a provenance key is an amount key. */
  lemma FieldIsAmount(k: string)
    requires k in AllFields && k != "source_url" && k != "report_date" && k != "data_collected_at"
    ensures k in NumericFields
  {
  }

  /** Filtering the updated dictionary to the 21 fields gives the converted record. */
  lemma FilteredIsConverted(e: Record, pdfPath: string, date: Value, now: string)
    ensures (var d := Defaulted(e)["source_url" := Str(pdfPath)]["report_date" := date]["data_collected_at" := Str(now)];
      map k | k in d && k in AllFields :: d[k]) == Converted(e, Str(pdfPath), date, now)
  {
    var d := Defaulted(e)["source_url" := Str(pdfPath)]["report_date" := date]["data_collected_at" := Str(now)];
    var f := map k | k in d && k in AllFields :: d[k];
    var c := Converted(e, Str(pdfPath), date, now);
    forall k | k in AllFields
      ensures k in d && f[k] == c[k]
    {
      assert c[k] == ConvertedField(e, Str(pdfPath), date, now, k);
      if k != "source_url" && k != "report_date" && k != "data_collected_at" {
        FieldIsAmount(k);
      }
    }
    assert f.Keys == c.Keys;
  }

  /** Numbers under the present amount keys and a string or null report date always give a record, whose source is the file path. */
  lemma ConvertSucceedsOnNumbers(e: Record, pdfPath: string, now: string)
    requires forall i :: 0 <= i < |NumericFields| && NumericFields[i] in e ==> e[NumericFields[i]].Num?
    requires ReportDateOf(e).Some? && (ReportDateOf(e).value.Str? || ReportDateOf(e).value.Null?)
    ensures ToFinancialData(Converted(e, Str(pdfPath), ReportDateOf(e).value, now)).Ok?
    ensures ToFinancialData(Converted(e, Str(pdfPath), ReportDateOf(e).value, now)).value.sourceUrl == Some(pdfPath)
  {
    var d := Converted(e, Str(pdfPath), ReportDateOf(e).value, now);
    ConvertedFields(e, Str(pdfPath), ReportDateOf(e).value, now);
    forall i | 0 <= i < |NumericFields|
      ensures NumField(d, NumericFields[i]).Some?
    {
      assert NumericFields[i] in AllFields;
    }
    assert TextField(d, "source_url") == Some(Some(pdfPath));
  }

  /** Keys other than the 21 fields (units, confidence, notes, source, fiscal_years) never reach the record. */
  lemma ExtraKeysDropped(e: Record, url: Value, date: Value, now: string, k: string)
    requires k !in AllFields
    ensures k !in Converted(e, url, date, now)
  {
  }
}
