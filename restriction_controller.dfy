/**
 * The restriction-option controller: the stored option list of the
 * restriction multi-select, the stored restriction selection, and the handler
 * that updates both when the user changes the selection.
 */
module RestrictionController {
  import opened Restrictions

  /** The per-entry rewrite inside the handler's `.map`: mark the entry for `tag` disabled. */
  function DisableEntry(o: RestrictionOption, tag: Restriction): (r: RestrictionOption)
    ensures r.value == o.value && r.caption == o.caption
    ensures r.disabled <==> o.disabled || o.value == tag
  {
    if o.value == tag then o.(disabled := true) else o
  }

  /**
   * The handler's `.map` over the stored list: the same entries in the same
   * order, with the entries for `tag` disabled and every other flag as it was.
   */
  function DisableMatching(opts: seq<RestrictionOption>, tag: Restriction): (r: seq<RestrictionOption>)
    ensures |r| == |opts|
    ensures forall i :: 0 <= i < |opts| ==>
      r[i].value == opts[i].value && r[i].caption == opts[i].caption
      && (r[i].disabled <==> opts[i].disabled || opts[i].value == tag)
  {
    if opts == [] then [] else [DisableEntry(opts[0], tag)] + DisableMatching(opts[1..], tag)
  }

  /**
   * The option list the handler stores for a requested selection. A requested
   * monthly budget disables the price-cap entry; otherwise a requested price
   * cap disables the monthly-budget entry; otherwise the list stays as it is.
   * No flag is ever cleared, and count, order, tags and captions are kept.
   */
  function NextOptions(opts: seq<RestrictionOption>, requested: seq<Restriction>): (r: seq<RestrictionOption>)
    ensures |r| == |opts|
    ensures forall i :: 0 <= i < |opts| ==> r[i].value == opts[i].value && r[i].caption == opts[i].caption
    ensures forall i :: 0 <= i < |opts| && opts[i].disabled ==> r[i].disabled
    ensures MonthlyChargingBudget in requested ==>
      forall i :: 0 <= i < |opts| ==> (r[i].disabled <==> opts[i].disabled || opts[i].value == KwhPriceCap)
    ensures MonthlyChargingBudget !in requested && KwhPriceCap in requested ==>
      forall i :: 0 <= i < |opts| ==> (r[i].disabled <==> opts[i].disabled || opts[i].value == MonthlyChargingBudget)
    ensures MonthlyChargingBudget !in requested && KwhPriceCap !in requested ==> r == opts
  {
    if MonthlyChargingBudget in requested then DisableMatching(opts, KwhPriceCap)
    else if KwhPriceCap in requested then DisableMatching(opts, MonthlyChargingBudget)
    else opts
  }

  /** The option list after the handler has run once for each selection of `history`, in order. */
  function OptionsAfter(opts: seq<RestrictionOption>, history: seq<seq<Restriction>>): seq<RestrictionOption>
    decreases |history|
  {
    if history == [] then opts else OptionsAfter(NextOptions(opts, history[0]), history[1..])
  }

  /**
   * However many selection changes follow, the list keeps its entries, tags
   * and captions, and an entry once disabled stays disabled: only a language
   * change rebuilds the list.
   */
  lemma {:induction false} DisabledStaysDisabled(opts: seq<RestrictionOption>, history: seq<seq<Restriction>>)
    ensures |OptionsAfter(opts, history)| == |opts|
    ensures forall i :: 0 <= i < |opts| ==>
      && OptionsAfter(opts, history)[i].value == opts[i].value
      && OptionsAfter(opts, history)[i].caption == opts[i].caption
      && (opts[i].disabled ==> OptionsAfter(opts, history)[i].disabled)
    decreases |history|
  {
    if history != [] {
      DisabledStaysDisabled(NextOptions(opts, history[0]), history[1..]);
    }
  }

  /** Running the handler over two histories in turn is running it over their concatenation. */
  lemma {:induction false} OptionsAfterConcat(opts: seq<RestrictionOption>, first: seq<seq<Restriction>>, second: seq<seq<Restriction>>)
    ensures OptionsAfter(opts, first + second) == OptionsAfter(OptionsAfter(opts, first), second)
    decreases |first|
  {
    if first == [] {
      assert first + second == second;
    } else {
      assert (first + second)[0] == first[0];
      assert (first + second)[1..] == first[1..] + second;
      OptionsAfterConcat(NextOptions(opts, first[0]), first[1..], second);
    }
  }

  /**
   * Once any selection has contained the monthly budget, whatever came before
   * it, the price-cap entry stays disabled through every later selection,
   * even one that drops the budget again.
   */
  lemma PriceCapStaysDisabled(labels: Labels, before: seq<seq<Restriction>>, selection: seq<Restriction>, later: seq<seq<Restriction>>)
    requires MonthlyChargingBudget in selection
    ensures var opts := OptionsAfter(RestrictionOptions(labels), before + [selection] + later);
      |opts| == 4 && opts[1].value == KwhPriceCap && opts[1].disabled
  {
    var initial := RestrictionOptions(labels);
    var beforeSelection := OptionsAfter(initial, before);
    DisabledStaysDisabled(initial, before);
    var afterSelection := NextOptions(beforeSelection, selection);
    assert afterSelection[1].disabled;
    assert OptionsAfter(beforeSelection, [selection]) == afterSelection by {
      assert [selection][1..] == [];
    }
    OptionsAfterConcat(initial, before, [selection]);
    OptionsAfterConcat(initial, before + [selection], later);
    DisabledStaysDisabled(afterSelection, later);
  }

  /**
   * Selecting the price cap and then adding the monthly budget leaves both
   * entries disabled. The second selection adds an entry that is already
   * disabled; whether the multi-select lets the user do that is not part of
   * this model, so this is the handler's behaviour on such a request, not a
   * state the page is shown to reach.
   */
  lemma BothEntriesCanEndDisabled(labels: Labels)
    ensures var opts := OptionsAfter(RestrictionOptions(labels), [[KwhPriceCap], [KwhPriceCap, MonthlyChargingBudget]]);
      |opts| == 4
      && opts[0].value == MonthlyChargingBudget && opts[0].disabled
      && opts[1].value == KwhPriceCap && opts[1].disabled
  {
  }

  /**
   * The component state the handler works on: the stored option list
   * (`restrictionOpts`) and the form's stored `restrictions` value.
   */
  class RestrictionSelector {
    var restrictionOpts: seq<RestrictionOption>
    var restrictions: seq<Restriction>

    /** The stored list always holds the four tags in display order. */
    ghost predicate Valid()
      reads this
    {
      Values(restrictionOpts) == DISPLAY_ORDER
    }

    /** Initial state: the option list for the initial language's labels and an empty selection. */
    constructor (labels: Labels)
      ensures Valid()
      ensures restrictionOpts == RestrictionOptions(labels) && restrictions == []
    {
      restrictionOpts := RestrictionOptions(labels);
      restrictions := [];
    }

    /** The language effect: rebuild the option list, clearing every disabled flag. */
    method SetLanguage(labels: Labels)
      modifies this
      ensures Valid()
      ensures restrictionOpts == RestrictionOptions(labels)
      ensures forall i :: 0 <= i < |restrictionOpts| ==> !restrictionOpts[i].disabled
      ensures restrictions == old(restrictions)
    {
      restrictionOpts := RestrictionOptions(labels);
    }

    /**
     * `handleRestrictionChange`: store the option list that the requested
     * selection calls for, and store the requested selection unchanged.
     */
    method HandleRestrictionChange(newRestrictions: seq<Restriction>)
      requires Valid()
      modifies this
      ensures Valid()
      ensures restrictionOpts == NextOptions(old(restrictionOpts), newRestrictions)
      ensures restrictions == newRestrictions
    {
      var hasMonthlyBudget := MonthlyChargingBudget in newRestrictions;
      var hasPriceCap := KwhPriceCap in newRestrictions;
      if hasMonthlyBudget {
        restrictionOpts := DisableMatching(restrictionOpts, KwhPriceCap);
      } else if hasPriceCap {
        restrictionOpts := DisableMatching(restrictionOpts, MonthlyChargingBudget);
      } else {
        restrictionOpts := restrictionOpts;
      }
      assert Values(restrictionOpts) == Values(old(restrictionOpts));
      restrictions := newRestrictions;
    }
  }
}
