/**
 * The restriction tags of the fleet-policy form and the option list that the
 * restriction multi-select shows for them.
 */
module Restrictions {

  /** The `Restriction` union of string tags. */
  datatype Restriction = MonthlyChargingBudget | KwhPriceCap | CountryRestriction | FastCharging

  /** The order in which the option list presents the four tags. */
  const DISPLAY_ORDER: seq<Restriction> := [MonthlyChargingBudget, KwhPriceCap, CountryRestriction, FastCharging]

  /** Every tag has its place in the display order. */
  lemma DisplayOrderListsEveryTag()
    ensures forall tag: Restriction :: tag in DISPLAY_ORDER
  {
    forall tag: Restriction ensures tag in DISPLAY_ORDER {
      match tag
      case MonthlyChargingBudget => assert DISPLAY_ORDER[0] == tag;
      case KwhPriceCap => assert DISPLAY_ORDER[1] == tag;
      case CountryRestriction => assert DISPLAY_ORDER[2] == tag;
      case FastCharging => assert DISPLAY_ORDER[3] == tag;
    }
  }

  /**
   * The translated labels of one language for the four tags. Where they come
   * from (the translation tables, the language of the page) is not modelled:
   * they are opaque strings here.
   */
  datatype Labels = Labels(
    monthlyChargingBudget: string,
    kwhPriceCap: string,
    countryRestriction: string,
    fastCharging: string)

  function LabelOf(labels: Labels, tag: Restriction): string
  {
    match tag
    case MonthlyChargingBudget => labels.monthlyChargingBudget
    case KwhPriceCap => labels.kwhPriceCap
    case CountryRestriction => labels.countryRestriction
    case FastCharging => labels.fastCharging
  }

  /**
   * One entry of the option list. Its `label` is called `caption` here, as
   * `label` is a Dafny keyword. The icon is presentation and left out; an
   * entry without a `disabled` key reads as not disabled.
   */
  datatype RestrictionOption = RestrictionOption(value: Restriction, caption: string, disabled: bool)

  /** The tags of an option list, in list order. */
  function Values(opts: seq<RestrictionOption>): seq<Restriction>
  {
    seq(|opts|, i requires 0 <= i < |opts| => opts[i].value)
  }

  /**
   * `getRestrictionsOptions`: the fresh option list for one language. It lists
   * every tag exactly once, in display order, with that language's label, and
   * no entry is disabled.
   */
  function RestrictionOptions(labels: Labels): (opts: seq<RestrictionOption>)
    ensures Values(opts) == DISPLAY_ORDER
    ensures forall tag: Restriction :: tag in Values(opts)
    ensures forall i, j :: 0 <= i < j < |opts| ==> opts[i].value != opts[j].value
    ensures forall i :: 0 <= i < |opts| ==> opts[i].caption == LabelOf(labels, opts[i].value)
    ensures forall i :: 0 <= i < |opts| ==> !opts[i].disabled
  {
    DisplayOrderListsEveryTag();
    [ RestrictionOption(MonthlyChargingBudget, labels.monthlyChargingBudget, false),
      RestrictionOption(KwhPriceCap, labels.kwhPriceCap, false),
      RestrictionOption(CountryRestriction, labels.countryRestriction, false),
      RestrictionOption(FastCharging, labels.fastCharging, false) ]
  }
}
