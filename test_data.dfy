// The hardcoded ground-truth table of the three test companies: their
// records, the accepted spellings of their names, and the expected scores.
module TestData {

  import opened Wrappers
  import opened Text
  import opened Models

  const TestCompanies: seq<string> := ["Intellego Technologies", "SAAB", "BioArctic"]

  const CompanyNameMappings: map<string, string> := map[
    "intellego" := "Intellego Technologies",
    "intellego technologies" := "Intellego Technologies",
    "intellego technologies ab" := "Intellego Technologies",
    "saab" := "SAAB",
    "saab ab" := "SAAB",
    "saab b" := "SAAB",
    "saab (b stock)" := "SAAB",
    "saab (b)" := "SAAB",
    "bioarctic" := "BioArctic",
    "bioarctic ab" := "BioArctic",
    "bioarctic (b stock)" := "BioArctic",
    "bioarctic b" := "BioArctic",
    "bioarctic ab class b" := "BioArctic"]

  const IntellegoAliases: set<string> := {"intellego", "intellego technologies", "intellego technologies ab"}
  const SaabAliases: set<string> := {"saab", "saab ab", "saab b", "saab (b stock)", "saab (b)"}
  const BioArcticAliases: set<string> :=
    {"bioarctic", "bioarctic ab", "bioarctic (b stock)", "bioarctic b", "bioarctic ab class b"}

  /** Intellego Technologies, 2024 and 2023, thousands of SEK. */
  const Intellego: FinancialData := FinancialData(
    265281.0, 186493.0, 68416.0, 59604.0, 34529.0, -19187.0,
    413606.0, 253195.0, 56180.0, 48066.0, 234976.0, 131251.0,
    61259.0, 53911.0, 42333.0, 51455.0, 29317476.0, 26352614.0)

  /** SAAB, 2024 and 2023, millions of SEK. */
  const Saab: FinancialData := FinancialData(
    63751.0, 51609.0, 4210.0, 3443.0, 6732.0, 6462.0,
    99823.0, 82759.0, 7128.0, 6915.0, 65402.0, 54997.0,
    49715.0, 35002.0, 50088.0, 40349.0, 535.27, 532.99)

  /** BioArctic, 2023 and 2022, thousands of SEK. */
  const BioArctic: FinancialData := FinancialData(
    615995.0, 228291.0, 229249.0, -11179.0, 309694.0, -31637.0,
    1186078.0, 858307.0, 14537.0, 1182.0, 1152738.0, 820841.0,
    124966.0, 70883.0, 367437.0, 245961.0, 1766.0, 1763.0)

  function UnsupportedMessage(name: string): string
  {
    "Unsupported company '" + name + "'. Try 'Intellego Technologies', 'SAAB', or 'BioArctic'."
  }

  /** get_test_financial_data: the record for a name in any accepted spelling. */
  function GetTestFinancialData(company: string): (r: Result<FinancialData, Error>)
    ensures r.Ok? <==> LowerStrip(company) in CompanyNameMappings
    ensures r.Ok? ==> r.value in {Intellego, Saab, BioArctic}
  {
    var key := LowerStrip(company);
    if key in IntellegoAliases then Ok(Intellego)
    else if key in SaabAliases then Ok(Saab)
    else if key in BioArcticAliases then Ok(BioArctic)
    else Err(ValueError(UnsupportedMessage(key)))
  }

  /** normalize_company_name: lower-case and strip, then look the result up. */
  function NormalizeCompanyName(company: string): (r: Result<string, Error>)
    ensures r.Ok? <==> LowerStrip(company) in CompanyNameMappings
    ensures r.Ok? ==> r.value in TestCompanies
  {
    var key := LowerStrip(company);
    if key in CompanyNameMappings then Ok(CompanyNameMappings[key])
    else Err(ValueError("Unsupported company '" + company + "'"))
  }

  /** get_test_companies: a fresh list of the three names (a value here, so the copy is implicit). */
  function GetTestCompanies(): (names: seq<string>)
    ensures |names| == 3 && forall i :: 0 <= i < 3 ==> names[i] in CompanyNameMappings.Values
    ensures forall v :: v in CompanyNameMappings.Values ==> v in names
    ensures names[0] != names[1] && names[0] != names[2] && names[1] != names[2]
  {
    MappingValuesAreTestCompanies();
    TestCompanies
  }

  /** get_expected_f_scores: the default-option scores. */
  function GetExpectedFScores(): (scores: map<string, nat>)
    ensures scores.Keys == set c | c in TestCompanies
    ensures forall c :: c in scores ==> scores[c] <= 9
  {
    map["Intellego Technologies" := 5, "SAAB" := 6, "BioArctic" := 6]
  }

  /** get_expected_f_scores_custom: the scores under the per-company options. */
  function GetExpectedFScoresCustom(): (scores: map<string, nat>)
    ensures scores.Keys == set c | c in TestCompanies
    ensures forall c :: c in scores ==> scores[c] <= 9
  {
    map["Intellego Technologies" := 6, "SAAB" := 5, "BioArctic" := 7]
  }

  // ---------------------------------------------------------------------
  // Properties

  /** The canonical names lower-case and strip to their mapping keys. */
  lemma IntellegoKey()
    ensures LowerStrip("Intellego Technologies") == "intellego technologies"
  {
    LowerStripTo("Intellego Technologies", "intellego technologies");
  }

  lemma SaabKey()
    ensures LowerStrip("SAAB") == "saab"
  {
    LowerStripTo("SAAB", "saab");
  }

  lemma BioArcticKey()
    ensures LowerStrip("BioArctic") == "bioarctic"
  {
    LowerStripTo("BioArctic", "bioarctic");
  }

  /** The three alias sets are exactly the mapping's keys, each mapped to its own company. */
  lemma AliasesAreMappingKeys()
    ensures IntellegoAliases + SaabAliases + BioArcticAliases == CompanyNameMappings.Keys
    ensures forall a | a in IntellegoAliases :: CompanyNameMappings[a] == "Intellego Technologies"
    ensures forall a | a in SaabAliases :: CompanyNameMappings[a] == "SAAB"
    ensures forall a | a in BioArcticAliases :: CompanyNameMappings[a] == "BioArctic"
  {
    IntellegoAliasesMapped();
    SaabAliasesMapped();
    BioArcticAliasesMapped();
    MappingKeysAreAliases();
  }

  lemma IntellegoAliasesMapped()
    ensures forall a | a in IntellegoAliases :: a in CompanyNameMappings && CompanyNameMappings[a] == "Intellego Technologies"
  {
  }

  lemma SaabAliasesMapped()
    ensures forall a | a in SaabAliases :: a in CompanyNameMappings && CompanyNameMappings[a] == "SAAB"
  {
  }

  lemma BioArcticAliasesMapped()
    ensures forall a | a in BioArcticAliases :: a in CompanyNameMappings && CompanyNameMappings[a] == "BioArctic"
  {
  }

  lemma MappingKeysAreAliases()
    ensures forall k | k in CompanyNameMappings :: k in IntellegoAliases + SaabAliases + BioArcticAliases
  {
  }

  /** Every name the mapping produces is a test company, and every test company is produced. */
  lemma MappingValuesAreTestCompanies()
    ensures CompanyNameMappings.Values == set c | c in TestCompanies
  {
    assert CompanyNameMappings["intellego"] == "Intellego Technologies";
    assert CompanyNameMappings["saab"] == "SAAB";
    assert CompanyNameMappings["bioarctic"] == "BioArctic";
  }

  /**
   * A name normalises exactly when it has a record, and its record is the
   * record of the name it normalises to.
   */
  lemma NormaliseAgreesWithRecords(company: string)
    ensures NormalizeCompanyName(company).Ok? <==> GetTestFinancialData(company).Ok?
    ensures NormalizeCompanyName(company).Ok? ==>
      GetTestFinancialData(NormalizeCompanyName(company).value) == GetTestFinancialData(company)
  {
    var key := LowerStrip(company);
    if key in IntellegoAliases {
      IntellegoAliasesMapped();
      IntellegoKey();
    } else if key in SaabAliases {
      SaabAliasesMapped();
      SaabKey();
    } else if key in BioArcticAliases {
      BioArcticAliasesMapped();
      BioArcticKey();
    } else {
      MappingKeysAreAliases();
    }
  }

  /** The documented examples of normalisation: "SAAB AB" and "bioarctic b". */
  lemma NormaliseExamples()
    ensures NormalizeCompanyName("SAAB AB") == Ok("SAAB")
    ensures NormalizeCompanyName("bioarctic b") == Ok("BioArctic")
  {
    LowerStripTo("SAAB AB", "saab ab");
    LowerStripNoop("bioarctic b");
  }

  /**
   * Surrounding blanks and capitals do not matter: a name normalises as its
   * lower-cased, stripped form does, to the same company.
   */
  lemma NormaliseIgnoresCaseAndBlanks(company: string)
    ensures NormalizeCompanyName(company).Ok? <==> NormalizeCompanyName(LowerStrip(company)).Ok?
    ensures NormalizeCompanyName(company).Ok? ==>
      NormalizeCompanyName(company).value == NormalizeCompanyName(LowerStrip(company)).value
  {
    LowerStripIdempotent(company);
  }

  /** One instance: "  Intellego " is Intellego Technologies. */
  lemma NormaliseIntellegoExample()
    ensures NormalizeCompanyName("  Intellego ") == Ok("Intellego Technologies")
  {
    LowerTo("  Intellego ", "  intellego ");
    assert Strip("  intellego ") == "intellego";
  }

  /** An unknown, empty or blank name is refused by both lookups. */
  lemma UnknownNamesRefused()
    ensures NormalizeCompanyName("Unknown Company").Err?
    ensures GetTestFinancialData("Unknown Company").Err?
    ensures NormalizeCompanyName("").Err? && GetTestFinancialData("").Err?
    ensures NormalizeCompanyName("   ").Err? && GetTestFinancialData("   ").Err?
  {
    UnknownCompanyRefused();
    EmptyNameRefused();
    BlankNameRefused();
  }

  /** "Unknown Company" is no alias. */
  lemma UnknownCompanyRefused()
    ensures NormalizeCompanyName("Unknown Company").Err?
    ensures GetTestFinancialData("Unknown Company").Err?
  {
    LowerStripTo("Unknown Company", "unknown company");
  }

  /** The empty name is refused by both lookups. */
  lemma EmptyNameRefused()
    ensures GetTestFinancialData("").Err?
    ensures NormalizeCompanyName("").Err?
  {
    LowerStripNoop("");
  }

  /** A blank name is refused by both lookups: it strips to the empty name. */
  lemma BlankNameRefused()
    ensures GetTestFinancialData("   ").Err?
    ensures NormalizeCompanyName("   ").Err?
  {
    LowerTo("   ", "   ");
    assert LowerStrip("   ") == "";
  }

  /** Every record in the table has positive revenue and total assets in both years. */
  lemma RecordsArePositive(company: string)
    requires GetTestFinancialData(company).Ok?
    ensures var fd := GetTestFinancialData(company).value;
      fd.revenueCur > 0.0 && fd.revenuePrev > 0.0 && fd.totalAssetsCur > 0.0 && fd.totalAssetsPrev > 0.0
  {
  }
}
