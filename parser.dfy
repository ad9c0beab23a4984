// The nine Piotroski signals derived from one two-period record under
// ParseOptions, with division by zero read as 0.
module Parser {

  import opened Wrappers
  import opened Models

  /** An ordered str -> bool dictionary, as the parser returns it. */
  type Metrics = seq<(string, bool)>

  const SignalNames: seq<string> := [
    "roa_positive", "cfo_positive", "roa_improved", "accrual_positive",
    "leverage_decreased", "current_ratio_improved", "no_new_shares",
    "gross_margin_improved", "asset_turnover_improved"]

  function Keys(m: Metrics): seq<string>
  {
    seq(|m|, i requires 0 <= i < |m| => m[i].0)
  }

  function Values(m: Metrics): seq<bool>
  {
    seq(|m|, i requires 0 <= i < |m| => m[i].1)
  }

  /** n/d, or 0 when d is 0. */
  function SafeDiv(n: real, d: real): (q: real)
    ensures d == 0.0 ==> q == 0.0
    ensures d != 0.0 ==> q * d == n
  {
    if d != 0.0 then n / d else 0.0
  }

  function Abs(x: real): real
  {
    if x < 0.0 then -x else x
  }

  function OptionsOrDefault(options: Option<ParseOptions>): ParseOptions
  {
    options.GetOr(ParseOptions())
  }

  function RoaCur(raw: FinancialData): real { SafeDiv(raw.netIncomeCur, raw.totalAssetsCur) }
  function RoaPrev(raw: FinancialData): real { SafeDiv(raw.netIncomePrev, raw.totalAssetsPrev) }
  function DebtRatioCur(raw: FinancialData): real { SafeDiv(raw.longTermDebtCur, raw.totalAssetsCur) }
  function DebtRatioPrev(raw: FinancialData): real { SafeDiv(raw.longTermDebtPrev, raw.totalAssetsPrev) }
  function CurrentRatioCur(raw: FinancialData): real { SafeDiv(raw.currentAssetsCur, raw.currentLiabilitiesCur) }
  function CurrentRatioPrev(raw: FinancialData): real { SafeDiv(raw.currentAssetsPrev, raw.currentLiabilitiesPrev) }
  function GrossMarginCur(raw: FinancialData): real { SafeDiv(raw.revenueCur - raw.cogsCur, raw.revenueCur) }
  function GrossMarginPrev(raw: FinancialData): real { SafeDiv(raw.revenuePrev - raw.cogsPrev, raw.revenuePrev) }
  function TurnoverCur(raw: FinancialData): real { SafeDiv(raw.revenueCur, raw.totalAssetsCur) }
  function TurnoverPrev(raw: FinancialData): real { SafeDiv(raw.revenuePrev, raw.totalAssetsPrev) }

  predicate RoaPositive(raw: FinancialData) { RoaCur(raw) > 0.0 }
  predicate CfoPositive(raw: FinancialData) { raw.cfoCur > 0.0 }
  predicate RoaImproved(raw: FinancialData) { RoaCur(raw) > RoaPrev(raw) }
  predicate AccrualPositive(raw: FinancialData) { raw.cfoCur > raw.netIncomeCur }

  predicate LeverageDecreased(raw: FinancialData, o: ParseOptions)
  {
    if o.leverageUseRatio then DebtRatioCur(raw) < DebtRatioPrev(raw)
    else raw.longTermDebtCur < raw.longTermDebtPrev
  }

  predicate CurrentRatioImproved(raw: FinancialData) { CurrentRatioCur(raw) > CurrentRatioPrev(raw) }

  predicate NoNewShares(raw: FinancialData, o: ParseOptions)
  {
    var delta := raw.sharesCur - raw.sharesPrev;
    delta <= 0.0 || SafeDiv(Abs(delta), raw.sharesPrev) <= o.shareChangeThreshold
  }

  predicate GrossMarginImproved(raw: FinancialData) { GrossMarginCur(raw) > GrossMarginPrev(raw) }

  predicate AssetTurnoverImproved(raw: FinancialData, o: ParseOptions)
  {
    match o.assetTurnoverOverride
    case Some(b) => b
    case None => TurnoverCur(raw) > TurnoverPrev(raw)
  }

  /** parse_financials: the nine signals, keyed and ordered as the source returns them. */
  function ParseFinancials(raw: FinancialData, options: Option<ParseOptions>): (m: Metrics)
    ensures Keys(m) == SignalNames
  {
    var o := OptionsOrDefault(options);
    [("roa_positive", RoaPositive(raw)),
     ("cfo_positive", CfoPositive(raw)),
     ("roa_improved", RoaImproved(raw)),
     ("accrual_positive", AccrualPositive(raw)),
     ("leverage_decreased", LeverageDecreased(raw, o)),
     ("current_ratio_improved", CurrentRatioImproved(raw)),
     ("no_new_shares", NoNewShares(raw, o)),
     ("gross_margin_improved", GrossMarginImproved(raw)),
     ("asset_turnover_improved", AssetTurnoverImproved(raw, o))]
  }

  // ---------------------------------------------------------------------
  // Properties

  /** Omitting the options is the same as passing ParseOptions(). */
  lemma OmittedOptionsAreDefault(raw: FinancialData)
    ensures ParseFinancials(raw, None) == ParseFinancials(raw, Some(ParseOptions(true, 0.0, None)))
  {
  }

  /** Every comparison is strict: equal ratios never earn a point. */
  lemma TiesNeverScore(raw: FinancialData, o: ParseOptions)
    ensures RoaCur(raw) == RoaPrev(raw) ==> !RoaImproved(raw)
    ensures CurrentRatioCur(raw) == CurrentRatioPrev(raw) ==> !CurrentRatioImproved(raw)
    ensures GrossMarginCur(raw) == GrossMarginPrev(raw) ==> !GrossMarginImproved(raw)
    ensures o.assetTurnoverOverride.None? && TurnoverCur(raw) == TurnoverPrev(raw)
            ==> !AssetTurnoverImproved(raw, o)
    ensures o.leverageUseRatio && DebtRatioCur(raw) == DebtRatioPrev(raw) ==> !LeverageDecreased(raw, o)
    ensures !o.leverageUseRatio && raw.longTermDebtCur == raw.longTermDebtPrev ==> !LeverageDecreased(raw, o)
  {
  }

  lemma DivLessSamePositive(a: real, b: real, t: real)
    requires t > 0.0
    ensures a / t < b / t <==> a < b
  {
    if a < b {
      assert (b - a) / t > 0.0;
      assert b / t - a / t == (b - a) / t;
    } else {
      assert (a - b) / t >= 0.0;
      assert a / t - b / t == (a - b) / t;
    }
  }

  /**
   * When total assets are the same positive amount in both years, the
   * ratio and the absolute leverage tests agree.
   */
  lemma LeverageModesAgreeOnEqualAssets(raw: FinancialData, o: ParseOptions)
    requires raw.totalAssetsCur == raw.totalAssetsPrev && raw.totalAssetsCur > 0.0
    ensures LeverageDecreased(raw, o) == LeverageDecreased(raw, o.(leverageUseRatio := !o.leverageUseRatio))
  {
    DivLessSamePositive(raw.longTermDebtCur, raw.longTermDebtPrev, raw.totalAssetsCur);
  }

  /** The absolute leverage test does not look at total assets. */
  lemma AbsoluteLeverageIgnoresAssets(raw: FinancialData, o: ParseOptions, ta: real, tp: real)
    requires !o.leverageUseRatio
    ensures LeverageDecreased(raw.(totalAssetsCur := ta, totalAssetsPrev := tp), o) == LeverageDecreased(raw, o)
  {
  }

  /**
   * With a positive previous share count and a non-negative threshold t,
   * "no new shares" holds exactly when the share count grew by at most a
   * fraction t.
   */
  lemma NoNewSharesWithinThreshold(raw: FinancialData, o: ParseOptions)
    requires raw.sharesPrev > 0.0 && o.shareChangeThreshold >= 0.0
    ensures NoNewShares(raw, o) <==> raw.sharesCur <= raw.sharesPrev * (1.0 + o.shareChangeThreshold)
  {
    var delta := raw.sharesCur - raw.sharesPrev;
    var t := o.shareChangeThreshold;
    if delta > 0.0 {
      var q := delta / raw.sharesPrev;
      assert q * raw.sharesPrev == delta;
      if q <= t {
        assert q * raw.sharesPrev <= t * raw.sharesPrev;
      } else {
        assert q * raw.sharesPrev > t * raw.sharesPrev;
      }
    } else {
      assert t * raw.sharesPrev >= 0.0;
    }
  }

  /** A threshold of 0 is the strict no-issuance rule. */
  lemma ZeroThresholdIsStrict(raw: FinancialData, o: ParseOptions)
    requires raw.sharesPrev > 0.0 && o.shareChangeThreshold == 0.0
    ensures NoNewShares(raw, o) <==> raw.sharesCur <= raw.sharesPrev
  {
    NoNewSharesWithinThreshold(raw, o);
  }

  /** With no previous shares the relative change reads as 0, so any non-negative threshold passes. */
  lemma ZeroPreviousSharesPass(raw: FinancialData, o: ParseOptions)
    requires raw.sharesPrev == 0.0 && o.shareChangeThreshold >= 0.0
    ensures NoNewShares(raw, o)
  {
  }

  /** Raising the threshold can only turn "no new shares" from false to true. */
  lemma ThresholdMonotone(raw: FinancialData, o1: ParseOptions, o2: ParseOptions)
    requires o1.shareChangeThreshold <= o2.shareChangeThreshold
    ensures NoNewShares(raw, o1) ==> NoNewShares(raw, o2)
  {
  }

  /** A set override is the turnover signal. */
  lemma OverrideDecidesTurnover(raw: FinancialData, o: ParseOptions, b: bool)
    requires o.assetTurnoverOverride == Some(b)
    ensures AssetTurnoverImproved(raw, o) == b
  {
  }

  /** The override changes the ninth signal only. */
  lemma OverrideTouchesOnlyTurnover(raw: FinancialData, o: ParseOptions, ov: Option<bool>)
    ensures ParseFinancials(raw, Some(o))[..8] == ParseFinancials(raw, Some(o.(assetTurnoverOverride := ov)))[..8]
  {
  }
}
