/**
 * The savings calculator (`computeSavings`) and the readiness gate that decides
 * when its result is shown at all.
 *
 * Every quantity is a `real`. The form's numbers are JavaScript numbers; an
 * optional one counts as present when it is defined and non-zero (its
 * truthiness), and NaN is not modelled.
 */
module Savings {
  import opened Wrappers
  import opened Restrictions

  /** The form snapshot handed to the calculator (`SalesWizardFormInput`). */
  datatype SalesWizardFormInput = SalesWizardFormInput(
    carCount: real,
    leasingContractYearlyMileageAllowed: real,
    restrictions: seq<Restriction>,
    countryRestrictions: seq<string>,
    monthlyChargingBudget: Option<real>,
    kwhPriceCap: Option<real>)

  /** The calculator's result (`SavingsResult`). */
  datatype SavingsResult = SavingsResult(
    totalSavings: real,
    totalFleetSavingsByBudget: real,
    totalFleetSavingsByPriceCap: real,
    savingsByCountryRestrictions: real,
    fleetSavingsByFastChargeBlocking: real)

  /** JavaScript truthiness of an optional number: defined and not zero. */
  predicate Truthy(x: Option<real>)
  {
    x.Some? && x.value != 0.0
  }

  /** Fraud savings per car, added to every total. */
  const FRAUD_SAVINGS_PER_CAR: real := 78.0

  /** The guard of the budget contribution. */
  predicate BudgetApplies(v: SalesWizardFormInput)
  {
    MonthlyChargingBudget in v.restrictions && Truthy(v.monthlyChargingBudget)
  }

  /** The guard of the price-cap contribution. */
  predicate PriceCapApplies(v: SalesWizardFormInput)
  {
    KwhPriceCap in v.restrictions && Truthy(v.kwhPriceCap)
  }

  /** The guard of the country contribution: exactly one allowed country, Belgium. */
  predicate RestrictedToBelgiumOnly(v: SalesWizardFormInput)
  {
    |v.countryRestrictions| == 1 && v.countryRestrictions[0] == "BE"
  }

  /**
   * `totalFleetSavingsByBudget` as the code computes it: one car's yearly
   * unrestricted charging cost less the whole fleet's yearly budget. Only the
   * budget is scaled by the car count and nothing clamps the difference, so
   * the figure is negative exactly when the fleet's budget exceeds one car's
   * cost.
   */
  function BudgetSavings(v: SalesWizardFormInput): (s: real)
    ensures !BudgetApplies(v) ==> s == 0.0
    ensures BudgetApplies(v) ==>
      s + 12.0 * v.monthlyChargingBudget.value * v.carCount == 0.09 * v.leasingContractYearlyMileageAllowed
    ensures BudgetApplies(v) ==>
      (s < 0.0 <==> 12.0 * v.monthlyChargingBudget.value * v.carCount > 0.09 * v.leasingContractYearlyMileageAllowed)
  {
    if BudgetApplies(v) then
      v.leasingContractYearlyMileageAllowed * 0.2 * 0.45 - 12.0 * v.monthlyChargingBudget.value * v.carCount
    else
      0.0
  }

  /**
   * `totalFleetSavingsByPriceCap` as the code computes it: the cap itself (not
   * the reference price less the cap) times 0.65, times the yearly energy
   * (mileage times 0.2) of the whole fleet.
   */
  function PriceCapSavings(v: SalesWizardFormInput): (s: real)
    ensures !PriceCapApplies(v) ==> s == 0.0
    ensures PriceCapApplies(v) ==>
      s == 0.13 * v.kwhPriceCap.value * v.leasingContractYearlyMileageAllowed * v.carCount
  {
    if PriceCapApplies(v) then
      v.kwhPriceCap.value * 0.65 * v.leasingContractYearlyMileageAllowed * 0.2 * v.carCount
    else
      0.0
  }

  /**
   * `savingsByCountryRestrictions`: 42.5 per car when Belgium is the one
   * allowed country, 0 for no country, another single country or several.
   * The `country_restriction` tag plays no part.
   */
  function CountrySavings(v: SalesWizardFormInput): (s: real)
    ensures RestrictedToBelgiumOnly(v) ==> s == 42.5 * v.carCount
    ensures !RestrictedToBelgiumOnly(v) ==> s == 0.0
    ensures |v.countryRestrictions| != 1 ==> s == 0.0
  {
    if RestrictedToBelgiumOnly(v) then
      v.carCount * 0.1 * 2500.0 * 0.2 * 0.85
    else if |v.countryRestrictions| > 1 then
      0.0
    else
      0.0
  }

  /** `fleetSavingsByFastChargeBlocking`: 0.024 per distance unit and car when fast charging is blocked. */
  function FastChargingSavings(v: SalesWizardFormInput): (s: real)
    ensures FastCharging in v.restrictions ==>
      s == 0.024 * v.leasingContractYearlyMileageAllowed * v.carCount
    ensures FastCharging !in v.restrictions ==> s == 0.0
  {
    if FastCharging in v.restrictions then
      v.leasingContractYearlyMileageAllowed * 0.3 * 0.2 * 0.4 * v.carCount
    else
      0.0
  }

  /**
   * `computeSavings`: the four contributions, each zero unless its guard
   * holds, and a total that adds the fixed fraud savings of 78 per car. The
   * budget and price-cap contributions are computed independently: nothing
   * here stops both from applying.
   */
  function ComputeSavings(v: SalesWizardFormInput): (r: SavingsResult)
    ensures r.totalSavings ==
      r.totalFleetSavingsByBudget + r.totalFleetSavingsByPriceCap
      + r.savingsByCountryRestrictions + r.fleetSavingsByFastChargeBlocking
      + FRAUD_SAVINGS_PER_CAR * v.carCount
    ensures r.totalFleetSavingsByBudget == BudgetSavings(v)
    ensures r.totalFleetSavingsByPriceCap == PriceCapSavings(v)
    ensures r.savingsByCountryRestrictions == CountrySavings(v)
    ensures r.fleetSavingsByFastChargeBlocking == FastChargingSavings(v)
    ensures r.totalFleetSavingsByBudget != 0.0 ==> BudgetApplies(v)
    ensures r.totalFleetSavingsByPriceCap != 0.0 ==> PriceCapApplies(v)
    ensures r.savingsByCountryRestrictions != 0.0 ==> RestrictedToBelgiumOnly(v)
    ensures r.fleetSavingsByFastChargeBlocking != 0.0 ==> FastCharging in v.restrictions
    ensures v.restrictions == [] && v.countryRestrictions == [] ==>
      && r.totalFleetSavingsByBudget == 0.0
      && r.totalFleetSavingsByPriceCap == 0.0
      && r.savingsByCountryRestrictions == 0.0
      && r.fleetSavingsByFastChargeBlocking == 0.0
      && r.totalSavings == FRAUD_SAVINGS_PER_CAR * v.carCount
  {
    var byBudget := BudgetSavings(v);
    var byPriceCap := PriceCapSavings(v);
    var byCountry := CountrySavings(v);
    var byFastCharging := FastChargingSavings(v);
    SavingsResult(
      byBudget + byPriceCap + byCountry + byFastCharging + v.carCount * FRAUD_SAVINGS_PER_CAR,
      byBudget, byPriceCap, byCountry, byFastCharging)
  }

  /**
   * The values the form watches. Before the user types them, the car count and
   * the mileage are undefined.
   */
  datatype WatchedValues = WatchedValues(
    carCount: Option<real>,
    leasingContractYearlyMileageAllowed: Option<real>,
    restrictions: seq<Restriction>,
    countryRestrictions: seq<string>,
    monthlyChargingBudget: Option<real>,
    kwhPriceCap: Option<real>)

  /**
   * The effect that recomputes the savings: absent (`null`) unless both the
   * car count and the mileage are truthy, and otherwise exactly the
   * calculator's result on the current values.
   */
  function SavingsOnChange(w: WatchedValues): (r: Option<SavingsResult>)
    ensures r.Some? <==> Truthy(w.carCount) && Truthy(w.leasingContractYearlyMileageAllowed)
    ensures r.Some? ==> r.value == ComputeSavings(SalesWizardFormInput(
      w.carCount.value, w.leasingContractYearlyMileageAllowed.value, w.restrictions,
      w.countryRestrictions, w.monthlyChargingBudget, w.kwhPriceCap))
  {
    if Truthy(w.carCount) && Truthy(w.leasingContractYearlyMileageAllowed) then
      Some(ComputeSavings(SalesWizardFormInput(
        w.carCount.value, w.leasingContractYearlyMileageAllowed.value, w.restrictions,
        w.countryRestrictions, w.monthlyChargingBudget, w.kwhPriceCap)))
    else
      None
  }

  // The formula comments above the budget and price-cap branches describe
  // different formulas from the ones the code evaluates. They are kept here so
  // that the difference can be stated; nothing else uses them.

  /** The budget formula of the comment: per-car difference, then times the car count. */
  function CommentBudgetSavings(v: SalesWizardFormInput): (s: real)
    ensures !BudgetApplies(v) ==> s == 0.0
    ensures BudgetApplies(v) ==>
      s == (0.09 * v.leasingContractYearlyMileageAllowed - 12.0 * v.monthlyChargingBudget.value) * v.carCount
  {
    if BudgetApplies(v) then
      (v.leasingContractYearlyMileageAllowed * 0.2 * 0.45 - 12.0 * v.monthlyChargingBudget.value) * v.carCount
    else
      0.0
  }

  /** The price-cap formula of the comment: reference price 0.65 less the cap. */
  function CommentPriceCapSavings(v: SalesWizardFormInput): (s: real)
    ensures !PriceCapApplies(v) ==> s == 0.0
    ensures PriceCapApplies(v) ==>
      s == 0.2 * (0.65 - v.kwhPriceCap.value) * v.leasingContractYearlyMileageAllowed * v.carCount
  {
    if PriceCapApplies(v) then
      (0.65 - v.kwhPriceCap.value) * v.leasingContractYearlyMileageAllowed * 0.2 * v.carCount
    else
      0.0
  }

  /**
   * The code's budget figure differs from the comment's by one car's
   * unrestricted cost times (1 - carCount): the two agree exactly when there
   * is one car or no mileage.
   */
  lemma BudgetCodeVersusComment(v: SalesWizardFormInput)
    requires BudgetApplies(v)
    ensures BudgetSavings(v) == CommentBudgetSavings(v)
      + 0.09 * v.leasingContractYearlyMileageAllowed * (1.0 - v.carCount)
    ensures BudgetSavings(v) == CommentBudgetSavings(v) <==>
      (v.carCount == 1.0 || v.leasingContractYearlyMileageAllowed == 0.0)
  {
  }

  /**
   * The code's price-cap figure grows with the cap while the comment's shrinks:
   * for a fleet with positive mileage and car count, a higher cap gives the
   * code a higher figure and the comment a lower one.
   */
  lemma PriceCapCodeVersusComment(v: SalesWizardFormInput, w: SalesWizardFormInput)
    requires PriceCapApplies(v) && PriceCapApplies(w)
    requires w == v.(kwhPriceCap := w.kwhPriceCap)
    requires v.leasingContractYearlyMileageAllowed > 0.0 && v.carCount > 0.0
    requires v.kwhPriceCap.value < w.kwhPriceCap.value
    ensures PriceCapSavings(v) < PriceCapSavings(w)
    ensures CommentPriceCapSavings(v) > CommentPriceCapSavings(w)
  {
  }

  /** The two price-cap formulas agree only at the cap 13/33, or with no mileage or no cars. */
  lemma PriceCapAgreement(v: SalesWizardFormInput)
    requires PriceCapApplies(v)
    ensures PriceCapSavings(v) == CommentPriceCapSavings(v) <==>
      (v.kwhPriceCap.value == 13.0 / 33.0
       || v.leasingContractYearlyMileageAllowed == 0.0 || v.carCount == 0.0)
  {
  }

  /**
   * Ten cars, 20000 per year each, a monthly budget of 50: the code reports a
   * budget figure of -4200 where the comment's formula gives 12000.
   */
  lemma BudgetExample()
    ensures var v := SalesWizardFormInput(10.0, 20000.0, [MonthlyChargingBudget], [], Some(50.0), None);
      BudgetSavings(v) == -4200.0 && CommentBudgetSavings(v) == 12000.0
      && ComputeSavings(v).totalSavings == -3420.0
  {
  }

  /**
   * Ten cars, 20000 per year each, a cap of 0.30: the code reports 7800 where
   * the comment's formula gives 14000.
   */
  lemma PriceCapExample()
    ensures var v := SalesWizardFormInput(10.0, 20000.0, [KwhPriceCap], [], None, Some(0.30));
      PriceCapSavings(v) == 7800.0 && CommentPriceCapSavings(v) == 14000.0
  {
  }
}
