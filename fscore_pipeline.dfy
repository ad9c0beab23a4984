// The score of a company: fetch its record, derive the nine signals, count
// the true ones.
module FScorePipeline {

  import opened Wrappers
  import opened Models
  import opened Parser
  import HardcodedFetcher
  import TestData

  /** The number of true values. */
  function CountTrue(vs: seq<bool>): (n: nat)
    ensures n <= |vs|
  {
    if vs == [] then 0 else (if vs[0] then 1 else 0) + CountTrue(vs[1..])
  }

  /** No true value counts 0, and only all-true values count all. */
  lemma {:induction false} CountTrueExtremes(vs: seq<bool>)
    ensures CountTrue(vs) == 0 <==> forall i :: 0 <= i < |vs| ==> !vs[i]
    ensures CountTrue(vs) == |vs| <==> forall i :: 0 <= i < |vs| ==> vs[i]
  {
    if vs != [] {
      CountTrueExtremes(vs[1..]);
      assert forall i :: 1 <= i < |vs| ==> vs[i] == vs[1..][i - 1];
    }
  }

  /** compute_fscore: the sum of the signals read as 0/1. */
  function ComputeFScore(metrics: Metrics): (score: nat)
    ensures score <= |metrics|
  {
    CountTrue(Values(metrics))
  }

  /** The score is 0 exactly when no signal holds, and the number of signals exactly when all hold. */
  lemma ScoreExtremes(metrics: Metrics)
    ensures ComputeFScore(metrics) == 0 <==> forall i :: 0 <= i < |metrics| ==> !metrics[i].1
    ensures ComputeFScore(metrics) == |metrics| <==> forall i :: 0 <= i < |metrics| ==> metrics[i].1
  {
    var vs := Values(metrics);
    CountTrueExtremes(vs);
    assert forall i :: 0 <= i < |metrics| ==> vs[i] == metrics[i].1;
  }

  /** score_company: fetch, parse, count; an unsupported name raises. */
  function ScoreCompany(company: string, options: Option<ParseOptions>): (r: Result<nat, Error>)
    ensures r.Ok? <==> HardcodedFetcher.FetchFinancials(company).Ok?
    ensures r.Ok? ==> r.value <= 9
  {
    match HardcodedFetcher.FetchFinancials(company)
    case Err(e) => Err(e)
    case Ok(raw) => Ok(ComputeFScore(ParseFinancials(raw, options)))
  }

  const IntellegoOptions: ParseOptions := ParseOptions(leverageUseRatio := true, shareChangeThreshold := 0.0,
                                                       assetTurnoverOverride := Some(true))
  const SaabOptions: ParseOptions := ParseOptions(leverageUseRatio := false, shareChangeThreshold := 0.0,
                                                  assetTurnoverOverride := None)
  const BioArcticOptions: ParseOptions := ParseOptions(leverageUseRatio := true, shareChangeThreshold := 0.005,
                                                       assetTurnoverOverride := None)

  // ---------------------------------------------------------------------
  // Properties of the count

  lemma {:induction false} CountTrueIsMultiplicity(vs: seq<bool>)
    ensures CountTrue(vs) == multiset(vs)[true]
  {
    if vs != [] {
      CountTrueIsMultiplicity(vs[1..]);
      assert vs == [vs[0]] + vs[1..];
      assert multiset(vs) == multiset([vs[0]]) + multiset(vs[1..]);
    }
  }

  lemma {:induction false} CountTrueSnoc(vs: seq<bool>, b: bool)
    ensures CountTrue(vs + [b]) == CountTrue(vs) + (if b then 1 else 0)
  {
    CountTrueIsMultiplicity(vs + [b]);
    CountTrueIsMultiplicity(vs);
    assert multiset(vs + [b]) == multiset(vs) + multiset{b};
  }

  function TrueIndices(m: Metrics): set<nat>
  {
    set i: nat | i < |m| && m[i].1
  }

  /** The score is the number of entries whose value is true. */
  lemma {:induction false} ScoreCountsTrueEntries(m: Metrics)
    ensures ComputeFScore(m) == |TrueIndices(m)|
  {
    if m == [] {
      assert TrueIndices(m) == {};
    } else {
      var init := m[..|m| - 1];
      var last := m[|m| - 1];
      ScoreCountsTrueEntries(init);
      assert Values(m) == Values(init) + [last.1];
      CountTrueSnoc(Values(init), last.1);
      if last.1 {
        assert TrueIndices(m) == TrueIndices(init) + {|m| - 1};
      } else {
        assert TrueIndices(m) == TrueIndices(init);
      }
    }
  }

  lemma ValuesOfRemoval(m: Metrics, j: nat)
    requires j < |m|
    ensures Values(m[..j] + m[j + 1..]) == Values(m)[..j] + Values(m)[j + 1..]
  {
  }

  lemma MultisetCancel<T>(x: multiset<T>, y: multiset<T>, e: T)
    requires x + multiset{e} == y + multiset{e}
    ensures x == y
  {
    forall z
      ensures x[z] == y[z]
    {
      assert (x + multiset{e})[z] == (y + multiset{e})[z];
    }
  }

  lemma {:induction false} CountTrueConcat(a: seq<bool>, b: seq<bool>)
    ensures CountTrue(a + b) == CountTrue(a) + CountTrue(b)
  {
    if a == [] {
      assert a + b == b;
    } else {
      assert (a + b)[1..] == a[1..] + b;
      CountTrueConcat(a[1..], b);
    }
  }

  lemma ValuesConcat(a: Metrics, b: Metrics)
    ensures Values(a + b) == Values(a) + Values(b)
  {
  }

  /** Taking one entry out lowers the score by that entry's 0/1 value. */
  lemma ScoreOfRemoval(m: Metrics, j: nat)
    requires j < |m|
    ensures ComputeFScore(m) == ComputeFScore(m[..j] + m[j + 1..]) + (if m[j].1 then 1 else 0)
  {
    var a, b := m[..j], m[j + 1..];
    assert m == a + ([m[j]] + b);
    ValuesConcat(a, [m[j]] + b);
    ValuesConcat([m[j]], b);
    ValuesConcat(a, b);
    CountTrueConcat(Values(a), Values([m[j]] + b));
    CountTrueConcat(Values([m[j]]), Values(b));
    CountTrueConcat(Values(a), Values(b));
  }

  /** Taking the first entry of m1 out of both sides keeps two permutations of each other. */
  lemma RemovalKeepsPermutation(m1: Metrics, m2: Metrics, j: nat)
    requires multiset(m1) == multiset(m2) && |m1| > 0 && j < |m2| && m2[j] == m1[0]
    ensures multiset(m1[1..]) == multiset(m2[..j] + m2[j + 1..])
  {
    var a, b := m2[..j], m2[j + 1..];
    assert m1 == [m1[0]] + m1[1..];
    assert m2 == a + [m2[j]] + b;
    assert multiset(m1) == multiset{m1[0]} + multiset(m1[1..]);
    assert multiset(m2) == multiset(a) + multiset{m2[j]} + multiset(b);
    assert multiset(a + b) == multiset(a) + multiset(b);
    assert multiset(m1[1..]) + multiset{m1[0]} == multiset(m1);
    assert multiset(a + b) + multiset{m1[0]} == multiset(m2);
    MultisetCancel(multiset(m1[1..]), multiset(a + b), m1[0]);
  }

  /** The score is a sum over the values, so the order of the entries does not matter. */
  lemma {:induction false} ScoreIgnoresOrder(m1: Metrics, m2: Metrics)
    requires multiset(m1) == multiset(m2)
    ensures ComputeFScore(m1) == ComputeFScore(m2)
    decreases |m1|
  {
    if m1 == [] {
      assert |m2| == |multiset(m2)| == 0;
    } else {
      assert m1[0] in multiset(m2);
      var j :| 0 <= j < |m2| && m2[j] == m1[0];
      RemovalKeepsPermutation(m1, m2, j);
      ScoreIgnoresOrder(m1[1..], m2[..j] + m2[j + 1..]);
      ScoreOfRemoval(m1, 0);
      ScoreOfRemoval(m2, j);
      assert m1[..0] + m1[1..] == m1[1..];
    }
  }

  /** Nine signals, so the score of any record lies in 0..9. */
  lemma ScoreAtMostNine(raw: FinancialData, options: Option<ParseOptions>)
    ensures 0 <= ComputeFScore(ParseFinancials(raw, options)) <= 9
  {
  }

  // ---------------------------------------------------------------------
  // Oracle scenarios

  const PerfectCompany: FinancialData := FinancialData(
    1000.0, 800.0, 100.0, 60.0, 120.0, 70.0, 1200.0, 1200.0, 200.0, 300.0,
    800.0, 600.0, 200.0, 250.0, 400.0, 450.0, 100.0, 100.0, sourceUrl := Some("test_data"))

  const TerribleCompany: FinancialData := FinancialData(
    500.0, 800.0, -50.0, -30.0, -60.0, -20.0, 1000.0, 1200.0, 400.0, 300.0,
    200.0, 300.0, 300.0, 200.0, 600.0, 500.0, 120.0, 100.0, sourceUrl := Some("test_data"))

  const MixedCompany: FinancialData := FinancialData(
    1000.0, 900.0, 50.0, 40.0, 30.0, 20.0, 2000.0, 1800.0, 300.0, 250.0,
    600.0, 500.0, 200.0, 180.0, 500.0, 480.0, 100.0, 100.0, sourceUrl := Some("test_data"))

  const ZeroCompany: FinancialData := FinancialData(
    0.0, 0.0, 0.0, 0.0, 0.0, 0.0, 0.0, 0.0, 0.0, 0.0,
    0.0, 0.0, 0.0, 0.0, 0.0, 0.0, 1.0, 0.0, sourceUrl := Some("test_data"))

  /** Signals that count n make a score of n. */
  lemma ScoreFromSignals(m: Metrics, vs: seq<bool>, n: nat)
    requires Values(m) == vs && CountTrue(vs) == n
    ensures ComputeFScore(m) == n
  {
  }

  lemma PerfectSignals()
    ensures Values(ParseFinancials(PerfectCompany, None)) == [true, true, true, true, true, true, true, true, true]
  {
  }

  lemma PerfectCompanyScoresNine()
    ensures ComputeFScore(ParseFinancials(PerfectCompany, None)) == 9
  {
    PerfectSignals();
    assert CountTrue([true, true, true, true, true, true, true, true, true]) == 9;
    ScoreFromSignals(ParseFinancials(PerfectCompany, None), [true, true, true, true, true, true, true, true, true], 9);
  }

  lemma TerribleSignals()
    ensures Values(ParseFinancials(TerribleCompany, None)) == [false, false, false, false, false, false, false, false, false]
  {
  }

  lemma TerribleCompanyScoresZero()
    ensures ComputeFScore(ParseFinancials(TerribleCompany, None)) == 0
  {
    TerribleSignals();
    assert CountTrue([false, false, false, false, false, false, false, false, false]) == 0;
    ScoreFromSignals(ParseFinancials(TerribleCompany, None), [false, false, false, false, false, false, false, false, false], 0);
  }

  lemma MixedSignals()
    ensures TurnoverCur(MixedCompany) == TurnoverPrev(MixedCompany)
    ensures Values(ParseFinancials(MixedCompany, None)) == [true, true, true, false, false, true, true, true, false]
  {
  }

  /** The turnover tie 1000/2000 = 900/1800 earns nothing, so the mixed company scores 6. */
  lemma MixedCompanyScoresSix()
    ensures ComputeFScore(ParseFinancials(MixedCompany, None)) == 6
  {
    MixedSignals();
    assert CountTrue([true, true, true, false, false, true, true, true, false]) == 6;
    ScoreFromSignals(ParseFinancials(MixedCompany, None), [true, true, true, false, false, true, true, true, false], 6);
  }

  lemma ZeroSignals()
    ensures Values(ParseFinancials(ZeroCompany, None)) == [false, false, false, false, false, false, true, false, false]
  {
  }

  /** All zeros with shares 1 after 0: only "no new shares" holds (the relative change reads as 0). */
  lemma ZeroCompanyScoresOne()
    ensures ComputeFScore(ParseFinancials(ZeroCompany, None)) == 1
  {
    ZeroSignals();
    assert CountTrue([false, false, false, false, false, false, true, false, false]) == 1;
    ScoreFromSignals(ParseFinancials(ZeroCompany, None), [false, false, false, false, false, false, true, false, false], 1);
  }

  // ---------------------------------------------------------------------
  // The three hardcoded companies

  lemma IntellegoSignals()
    ensures Values(ParseFinancials(HardcodedFetcher.IntellegoRecord, None))
         == [true, true, false, false, true, true, false, true, false]
    ensures Values(ParseFinancials(HardcodedFetcher.IntellegoRecord, Some(IntellegoOptions)))
         == [true, true, false, false, true, true, false, true, true]
  {
  }

  lemma SaabSignals()
    ensures Values(ParseFinancials(HardcodedFetcher.SaabRecord, None))
         == [true, true, true, true, true, false, false, false, true]
    ensures Values(ParseFinancials(HardcodedFetcher.SaabRecord, Some(SaabOptions)))
         == [true, true, true, true, false, false, false, false, true]
  {
  }

  lemma BioArcticSignals()
    ensures Values(ParseFinancials(HardcodedFetcher.BioArcticRecord, None))
         == [true, true, true, true, false, false, false, true, true]
    ensures Values(ParseFinancials(HardcodedFetcher.BioArcticRecord, Some(BioArcticOptions)))
         == [true, true, true, true, false, false, true, true, true]
  {
  }

  /** A fetched record whose signals count n scores n. */
  lemma ScoreOfFetched(company: string, options: Option<ParseOptions>, raw: FinancialData, vs: seq<bool>, n: nat)
    requires HardcodedFetcher.FetchFinancials(company) == Ok(raw)
    requires Values(ParseFinancials(raw, options)) == vs && CountTrue(vs) == n
    ensures ScoreCompany(company, options) == Ok(n)
  {
  }

  lemma IntellegoScores()
    ensures ScoreCompany("Intellego Technologies", None) == Ok(5)
    ensures ScoreCompany("Intellego Technologies", Some(IntellegoOptions)) == Ok(6)
  {
    HardcodedFetcher.IntellegoResolves();
    IntellegoSignals();
    var raw := HardcodedFetcher.IntellegoRecord;
    var vs1 := [true, true, false, false, true, true, false, true, false];
    var vs2 := [true, true, false, false, true, true, false, true, true];
    assert CountTrue(vs1) == 5;
    assert CountTrue(vs2) == 6;
    ScoreOfFetched("Intellego Technologies", None, raw, vs1, 5);
    ScoreOfFetched("Intellego Technologies", Some(IntellegoOptions), raw, vs2, 6);
  }

  lemma SaabScores()
    ensures ScoreCompany("SAAB", None) == Ok(6)
    ensures ScoreCompany("SAAB", Some(SaabOptions)) == Ok(5)
  {
    HardcodedFetcher.SaabResolves();
    SaabSignals();
    var raw := HardcodedFetcher.SaabRecord;
    var vs1 := [true, true, true, true, true, false, false, false, true];
    var vs2 := [true, true, true, true, false, false, false, false, true];
    assert CountTrue(vs1) == 6;
    assert CountTrue(vs2) == 5;
    ScoreOfFetched("SAAB", None, raw, vs1, 6);
    ScoreOfFetched("SAAB", Some(SaabOptions), raw, vs2, 5);
  }

  lemma BioArcticScores()
    ensures ScoreCompany("BioArctic", None) == Ok(6)
    ensures ScoreCompany("BioArctic", Some(BioArcticOptions)) == Ok(7)
  {
    HardcodedFetcher.BioArcticResolves();
    BioArcticSignals();
    var raw := HardcodedFetcher.BioArcticRecord;
    var vs1 := [true, true, true, true, false, false, false, true, true];
    var vs2 := [true, true, true, true, false, false, true, true, true];
    assert CountTrue(vs1) == 6;
    assert CountTrue(vs2) == 7;
    ScoreOfFetched("BioArctic", None, raw, vs1, 6);
    ScoreOfFetched("BioArctic", Some(BioArcticOptions), raw, vs2, 7);
  }

  /** With default options the three test companies score as the ground-truth table says. */
  lemma ExpectedScoresHold(company: string)
    requires company in TestData.TestCompanies
    ensures ScoreCompany(company, None) == Ok(TestData.GetExpectedFScores()[company])
  {
    var expected := TestData.GetExpectedFScores();
    assert company == TestData.TestCompanies[0] || company == TestData.TestCompanies[1]
        || company == TestData.TestCompanies[2];
    if company == "Intellego Technologies" {
      assert expected[company] == 5;
      IntellegoScores();
    } else if company == "SAAB" {
      assert expected[company] == 6;
      SaabScores();
    } else {
      assert company == "BioArctic" && expected[company] == 6;
      BioArcticScores();
    }
  }

  /** With the per-company options the three companies score 6, 5 and 7. */
  lemma CustomScoresHold()
    ensures ScoreCompany("Intellego Technologies", Some(IntellegoOptions))
         == Ok(TestData.GetExpectedFScoresCustom()["Intellego Technologies"])
    ensures ScoreCompany("SAAB", Some(SaabOptions)) == Ok(TestData.GetExpectedFScoresCustom()["SAAB"])
    ensures ScoreCompany("BioArctic", Some(BioArcticOptions)) == Ok(TestData.GetExpectedFScoresCustom()["BioArctic"])
  {
    assert TestData.GetExpectedFScoresCustom()["Intellego Technologies"] == 6;
    assert TestData.GetExpectedFScoresCustom()["SAAB"] == 5;
    assert TestData.GetExpectedFScoresCustom()["BioArctic"] == 7;
    IntellegoScores();
    SaabScores();
    BioArcticScores();
  }
}
