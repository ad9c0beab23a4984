// The hardcoded fetcher: one record per supported company, chosen by the
// lower-cased, stripped company name.
module HardcodedFetcher {

  import opened Wrappers
  import opened Text
  import opened Models
  import TestData

  const IntellegoNames: set<string> := {"intellego", "intellego technologies", "intellego technologies ab"}
  const SaabNames: set<string> := {"saab", "saab ab", "saab b", "saab (b stock)", "saab (b)"}
  const BioArcticNames: set<string> :=
    {"bioarctic", "bioarctic ab", "bioarctic (b stock)", "bioarctic b", "bioarctic ab class b"}

  const IntellegoRecord: FinancialData := FinancialData(
    265281.0, 186493.0, 68416.0, 59604.0, 34529.0, -19187.0,
    413606.0, 253195.0, 56180.0, 48066.0, 234976.0, 131251.0,
    61259.0, 53911.0, 42333.0, 51455.0, 29317476.0, 26352614.0)

  const SaabRecord: FinancialData := FinancialData(
    63751.0, 51609.0, 4210.0, 3443.0, 6732.0, 6462.0,
    99823.0, 82759.0, 7128.0, 6915.0, 65402.0, 54997.0,
    49715.0, 35002.0, 50088.0, 40349.0, 535.27, 532.99)

  const BioArcticRecord: FinancialData := FinancialData(
    615995.0, 228291.0, 229249.0, -11179.0, 309694.0, -31637.0,
    1186078.0, 858307.0, 14537.0, 1182.0, 1152738.0, 820841.0,
    124966.0, 70883.0, 367437.0, 245961.0, 1766.0, 1763.0)

  /** fetch_financials: the record for a supported name, a ValueError otherwise. */
  function FetchFinancials(company: string): (r: Result<FinancialData, Error>)
    ensures r.Err? <==> LowerStrip(company) !in IntellegoNames + SaabNames + BioArcticNames
  {
    var key := LowerStrip(company);
    if key in IntellegoNames then Ok(IntellegoRecord)
    else if key in SaabNames then Ok(SaabRecord)
    else if key in BioArcticNames then Ok(BioArcticRecord)
    else Err(ValueError("Unsupported company '" + key + "'. Try 'Intellego Technologies', 'SAAB', or 'BioArctic'."))
  }

  // ---------------------------------------------------------------------
  // Properties

  /** Only the normalised name matters. */
  lemma FetchUsesNormalisedName(company: string)
    ensures FetchFinancials(company) == FetchFinancials(LowerStrip(company))
  {
    LowerStripIdempotent(company);
  }

  /** Every alias of a company yields that company's record. */
  lemma AliasesShareRecord(alias: string)
    ensures alias in IntellegoNames ==> FetchFinancials(alias) == Ok(IntellegoRecord)
    ensures alias in SaabNames ==> FetchFinancials(alias) == Ok(SaabRecord)
    ensures alias in BioArcticNames ==> FetchFinancials(alias) == Ok(BioArcticRecord)
  {
    if alias in IntellegoNames { IntellegoAlias(alias); }
    if alias in SaabNames { SaabAlias(alias); }
    if alias in BioArcticNames { BioArcticAlias(alias); }
  }

  lemma IntellegoAlias(alias: string)
    requires alias in IntellegoNames
    ensures FetchFinancials(alias) == Ok(IntellegoRecord)
  {
    IntellegoNamesNormal();
  }

  lemma SaabAlias(alias: string)
    requires alias in SaabNames
    ensures FetchFinancials(alias) == Ok(SaabRecord)
  {
    SaabNamesNormal();
    NameSetsByInitial();
  }

  lemma BioArcticAlias(alias: string)
    requires alias in BioArcticNames
    ensures FetchFinancials(alias) == Ok(BioArcticRecord)
  {
    BioArcticNamesNormal();
    NameSetsByInitial();
  }

  /** The three alias sets are told apart by their first letter, so no name is in two of them. */
  lemma NameSetsByInitial()
    ensures forall a | a in IntellegoNames :: |a| > 0 && a[0] == 'i'
    ensures forall a | a in SaabNames :: |a| > 0 && a[0] == 's'
    ensures forall a | a in BioArcticNames :: |a| > 0 && a[0] == 'b'
  {
  }

  lemma IntellegoNamesNormal()
    ensures forall a | a in IntellegoNames :: LowerStrip(a) == a
  {
    forall a | a in IntellegoNames
      ensures LowerStrip(a) == a
    {
      LowerStripNoop(a);
    }
  }

  lemma SaabNamesNormal()
    ensures forall a | a in SaabNames :: LowerStrip(a) == a
  {
    forall a | a in SaabNames
      ensures LowerStrip(a) == a
    {
      LowerStripNoop(a);
    }
  }

  lemma BioArcticNamesNormal()
    ensures forall a | a in BioArcticNames :: LowerStrip(a) == a
  {
    forall a | a in BioArcticNames
      ensures LowerStrip(a) == a
    {
      LowerStripNoop(a);
    }
  }

  /** "Intellego Technologies" resolves to its record ... */
  lemma IntellegoResolves()
    ensures FetchFinancials("Intellego Technologies") == Ok(IntellegoRecord)
  {
    TestData.IntellegoKey();
    IntellegoAlias("intellego technologies");
  }

  /** ... "SAAB" to its record ... */
  lemma SaabResolves()
    ensures FetchFinancials("SAAB") == Ok(SaabRecord)
  {
    TestData.SaabKey();
    SaabAlias("saab");
  }

  /** ... and "BioArctic" to its record. */
  lemma BioArcticResolves()
    ensures FetchFinancials("BioArctic") == Ok(BioArcticRecord)
  {
    TestData.BioArcticKey();
    BioArcticAlias("bioarctic");
  }

  /** The empty name raises ValueError ... */
  lemma EmptyNameRaises()
    ensures FetchFinancials("").Err? && FetchFinancials("").error.ValueError?
  {
    LowerStripNoop("");
    NameSetsByInitial();
  }

  /** ... and so does a blank one ... */
  lemma BlankNameRaises()
    ensures FetchFinancials("   ").Err?
  {
    LowerTo("   ", "   ");
    assert LowerStrip("   ") == "";
    NameSetsByInitial();
  }

  /** ... and a name outside the three alias sets. */
  lemma UnsupportedNamesRaise()
    ensures FetchFinancials("Unknown Company").Err?
  {
    LowerStripTo("Unknown Company", "unknown company");
    NameSetsByInitial();
  }

  /** Every returned record has positive revenue and total assets in both years. */
  lemma RecordsArePositive(company: string)
    requires FetchFinancials(company).Ok?
    ensures var fd := FetchFinancials(company).value;
      fd.revenueCur > 0.0 && fd.revenuePrev > 0.0 && fd.totalAssetsCur > 0.0 && fd.totalAssetsPrev > 0.0
  {
  }

  /** The fetcher and the ground-truth table agree on every input, record and error alike. */
  lemma AgreesWithTestData(company: string)
    ensures FetchFinancials(company) == TestData.GetTestFinancialData(company)
  {
  }
}
