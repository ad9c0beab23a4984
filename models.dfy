// The record types shared by the fetchers, the parser and the scorers: the
// two-period FinancialData record, the ParseOptions flags, and the untyped
// dictionaries that scrapers and the PDF extractor hand around before a
// record is built from them.
module Models {

  import opened Wrappers

  /**
   * Nine current/previous pairs of amounts, none with a default, plus the
   * three provenance strings the AI-parser copy of the record adds with a
   * default of None.  Amounts are exact reals.
   */
  datatype FinancialData = FinancialData(
    revenueCur: real, revenuePrev: real,
    netIncomeCur: real, netIncomePrev: real,
    cfoCur: real, cfoPrev: real,
    totalAssetsCur: real, totalAssetsPrev: real,
    longTermDebtCur: real, longTermDebtPrev: real,
    currentAssetsCur: real, currentAssetsPrev: real,
    currentLiabilitiesCur: real, currentLiabilitiesPrev: real,
    cogsCur: real, cogsPrev: real,
    sharesCur: real, sharesPrev: real,
    sourceUrl: Option<string> := None,
    reportDate: Option<string> := None,
    dataCollectedAt: Option<string> := None)

  /** How the leverage, share-issuance and asset-turnover signals are computed. */
  datatype ParseOptions = ParseOptions(
    leverageUseRatio: bool := true,
    shareChangeThreshold: real := 0.0,
    assetTurnoverOverride: Option<bool> := None)

  /** A JSON-like value as it sits in a scraped or extracted dictionary. */
  datatype Value = Num(n: real) | Str(s: string) | Null | Obj(fields: map<string, Value>)

  type Record = map<string, Value>

  /** The Python exceptions the modelled code raises or lets escape. */
  datatype Error = ValueError(message: string) | TypeError | AttributeError | FileNotFound(path: string)

  const NumericFields: seq<string> := [
    "revenue_cur", "revenue_prev",
    "net_income_cur", "net_income_prev",
    "cfo_cur", "cfo_prev",
    "total_assets_cur", "total_assets_prev",
    "long_term_debt_cur", "long_term_debt_prev",
    "current_assets_cur", "current_assets_prev",
    "current_liabilities_cur", "current_liabilities_prev",
    "cogs_cur", "cogs_prev",
    "shares_cur", "shares_prev"]

  const ProvenanceFields: seq<string> := ["source_url", "report_date", "data_collected_at"]

  const AllFields: seq<string> := NumericFields + ProvenanceFields

  /** No amount key is a provenance key: every amount key ends in _cur or _prev. */
  lemma AmountNotProvenance(i: nat)
    requires i < |NumericFields|
    ensures NumericFields[i] != "source_url" && NumericFields[i] != "report_date" && NumericFields[i] != "data_collected_at"
  {
    var k := NumericFields[i];
    assert k[|k| - 1] == 'r' || k[|k| - 1] == 'v';
  }

  /** dict.get(k, default). */
  function Get(d: Record, k: string, default: Value): (v: Value)
    ensures k in d ==> v == d[k]
    ensures k !in d ==> v == default
  {
    if k in d then d[k] else default
  }

  /** The number stored under key k, if k holds a number. */
  function NumField(d: Record, k: string): Option<real>
  {
    if k in d && d[k].Num? then Some(d[k].n) else None
  }

  /** A provenance field: absent or null is None, a string is Some; anything else is refused. */
  function TextField(d: Record, k: string): Option<Option<string>>
  {
    if k !in d then Some(None)
    else match d[k]
      case Null => Some(None)
      case Str(s) => Some(Some(s))
      case _ => None
  }

  function OptText(o: Option<string>): Value
  {
    match o
    case None => Null
    case Some(s) => Str(s)
  }

  predicate KnownKeys(d: Record)
  {
    forall k | k in d :: k in AllFields
  }

  predicate NumbersPresent(d: Record)
  {
    forall i :: 0 <= i < |NumericFields| ==> NumField(d, NumericFields[i]).Some?
  }

  predicate ProvenanceReadable(d: Record)
  {
    TextField(d, "source_url").Some? && TextField(d, "report_date").Some?
    && TextField(d, "data_collected_at").Some?
  }

  /** The amounts stored under keys, in order, provided every one of them is a number. */
  function AmountsOf(d: Record, keys: seq<string>): (r: Option<seq<real>>)
    ensures r.Some? ==> |r.value| == |keys|
  {
    if keys == [] then Some([])
    else
      match (NumField(d, keys[0]), AmountsOf(d, keys[1..]))
      case (Some(x), Some(xs)) => Some([x] + xs)
      case _ => None
  }

  function FromAmounts(a: seq<real>, url: Option<string>, date: Option<string>, at: Option<string>): FinancialData
    requires |a| == 18
  {
    FinancialData(a[0], a[1], a[2], a[3], a[4], a[5], a[6], a[7], a[8], a[9],
                  a[10], a[11], a[12], a[13], a[14], a[15], a[16], a[17], url, date, at)
  }

  /** The 18 amounts of a record, in field order. */
  function Amounts(fd: FinancialData): (a: seq<real>)
    ensures |a| == 18
  {
    [fd.revenueCur, fd.revenuePrev, fd.netIncomeCur, fd.netIncomePrev, fd.cfoCur, fd.cfoPrev,
     fd.totalAssetsCur, fd.totalAssetsPrev, fd.longTermDebtCur, fd.longTermDebtPrev,
     fd.currentAssetsCur, fd.currentAssetsPrev, fd.currentLiabilitiesCur, fd.currentLiabilitiesPrev,
     fd.cogsCur, fd.cogsPrev, fd.sharesCur, fd.sharesPrev]
  }

  /**
   * FinancialData(**d): an unexpected key, or an amount that is missing or
   * not a number, is a TypeError; absent provenance keys take their
   * default None.  On success the i-th amount is the number under the i-th
   * field name.
   */
  function ToFinancialData(d: Record): (r: Result<FinancialData, Error>)
    ensures r.Ok? <==> KnownKeys(d) && NumbersPresent(d) && ProvenanceReadable(d)

    ensures r.Ok? ==> AmountsOf(d, NumericFields).Some? && Amounts(r.value) == AmountsOf(d, NumericFields).value
    ensures r.Ok? ==> r.value.sourceUrl == TextField(d, "source_url").value
    ensures r.Ok? ==> r.value.reportDate == TextField(d, "report_date").value
    ensures r.Ok? ==> r.value.dataCollectedAt == TextField(d, "data_collected_at").value
  {
    AmountsOfIff(d, NumericFields);
    var amounts := AmountsOf(d, NumericFields);
    var url := TextField(d, "source_url");
    var date := TextField(d, "report_date");
    var at := TextField(d, "data_collected_at");
    if !KnownKeys(d) || amounts.None? || url.None? || date.None? || at.None? then Err(TypeError)
    else
      var fd := FromAmounts(amounts.value, url.value, date.value, at.value);
      AmountsFromAmounts(amounts.value, url.value, date.value, at.value);

      Ok(fd)
  }

  // ---------------------------------------------------------------------
  // Properties

  lemma AmountsFromAmounts(a: seq<real>, url: Option<string>, date: Option<string>, at: Option<string>)
    requires |a| == 18
    ensures Amounts(FromAmounts(a, url, date, at)) == a
  {
    var b := Amounts(FromAmounts(a, url, date, at));
    assert forall i | 0 <= i < 18 :: b[i] == a[i];
  }

  lemma {:induction false} AmountsOfIff(d: Record, keys: seq<string>)
    ensures AmountsOf(d, keys).Some? <==> forall i :: 0 <= i < |keys| ==> NumField(d, keys[i]).Some?
    ensures AmountsOf(d, keys).Some? ==>
      forall i :: 0 <= i < |keys| ==> AmountsOf(d, keys).value[i] == NumField(d, keys[i]).value
  {
    if keys != [] {
      AmountsOfIff(d, keys[1..]);
      assert forall i :: 1 <= i < |keys| ==> keys[i] == keys[1..][i - 1];
    }
  }

  /** No amount has a default: leaving out any of the 18 numeric keys fails. */
  lemma AmountsRequired(d: Record, k: string)
    requires k in NumericFields && k !in d
    ensures ToFinancialData(d).Err?
  {
    assert NumField(d, k).None?;
  }

  /** The provenance keys may be left out; they then read as None. */
  lemma ProvenanceDefaultsToNone(d: Record)
    requires KnownKeys(d) && NumbersPresent(d)
    requires "source_url" !in d && "report_date" !in d && "data_collected_at" !in d
    ensures ToFinancialData(d).Ok?
    ensures ToFinancialData(d).value.sourceUrl.None? && ToFinancialData(d).value.reportDate.None?
    ensures ToFinancialData(d).value.dataCollectedAt.None?
  {
  }

  /** ParseOptions() is (leverage by ratio, a zero share threshold, no turnover override). */
  lemma DefaultOptions()
    ensures ParseOptions() == ParseOptions(true, 0.0, None)
    ensures ParseOptions().leverageUseRatio && ParseOptions().shareChangeThreshold == 0.0
    ensures ParseOptions().assetTurnoverOverride.None?
  {
  }
}
