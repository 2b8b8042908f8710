# Fleet charging-policy savings calculator — Dafny model

This project models the logic of a charging-policy sales wizard. A prospect
enters a fleet size (`carCount`), a yearly leasing mileage allowance per car,
and a set of charging restrictions. The wizard then shows the projected yearly
savings. The logic has three parts, all in `src/App.tsx`:

- **the savings calculator** (`computeSavings`). It computes four per-restriction
  savings figures: monthly charging budget, kWh price cap, country restriction
  and fast-charging block. The total adds them to a fixed fraud term of 78 per
  car. The model is the module `Savings`.
- **the readiness gate**, the effect that recomputes the savings. The result is
  absent (`null`) until both the car count and the mileage are truthy. This is
  `Savings.SavingsOnChange`.
- **the restriction-option controller** (`handleRestrictionChange`). It keeps the
  option list of the restriction multi-select. Requesting the monthly budget
  disables the price-cap option. Otherwise, requesting the price cap disables
  the budget option. It always stores the requested selection. This is the
  class `RestrictionController.RestrictionSelector`. Its state is the two
  fields `restrictionOpts` and `restrictions`, and its handler is specified by
  the function `NextOptions`.

Modules:

- `Wrappers` (`wrappers.dfy`): `Option`.
- `Restrictions` (`restrictions.dfy`): the tags and the option list.
- `Savings` (`savings.dfy`): the calculator and the gate.
- `RestrictionController` (`restriction_controller.dfy`): the handler and its state.

Every quantity is a Dafny `real`. The constants (0.2, 0.45, 0.65, 0.85, …) are
exact decimals. The model treats an optional number as present when it is
defined and non-zero, which is JavaScript truthiness without NaN.

### The code versus its formula comments

The comments above the budget and price-cap branches
(`src/App.tsx:347-348`) give different formulas from the ones the code
evaluates. The model follows the code:

- **Budget.** The comment says `(mileage·0.2·0.45 − 12·budget)·carCount`. The
  code computes `mileage·0.2·0.45 − 12·budget·carCount`: only the budget is
  scaled by the car count, and nothing clamps the result. With 10 cars, a
  mileage of 20000 and a budget of 50, the code gives −4200 where the comment
  gives 12000 (`Savings.BudgetExample`). The two differ by exactly
  `0.09·mileage·(1 − carCount)` (`Savings.BudgetCodeVersusComment`).
- **Price cap.** The comment says `(0.65 − cap)·mileage·0.2·carCount`. The code
  computes `cap·0.65·mileage·0.2·carCount`, so its figure rises with the cap
  while the comment's falls (`Savings.PriceCapCodeVersusComment`). The two
  agree only at a cap of 13/33, or with no mileage or no cars
  (`Savings.PriceCapAgreement`).

The comment formulas are kept as `CommentBudgetSavings` and
`CommentPriceCapSavings`. They exist only to state these differences and
nothing else uses them.

Two more behaviours of the code, both modelled as written:

- The calculator applies the budget and price-cap contributions
  independently. When both tags are present, both are computed.
- The handler never clears a `disabled` flag. Once any selection has contained the budget, whatever came before it, the
  price-cap option stays disabled even when the budget is
  deselected again (`RestrictionController.PriceCapStaysDisabled`). If the
  handler receives the price cap and then a selection that adds the budget,
  both options end up disabled
  (`RestrictionController.BothEntriesCanEndDisabled`). The second request
  adds an option that is already disabled, and whether the multi-select can
  send it is not part of this model. Only the language effect rebuilds the
  list.

## Model

| member | source | states |
|---|---|---|
| `Restrictions.DisplayOrderListsEveryTag` | src/App.tsx:10-21 | each of the four `Restriction` tags has a place in the option list's order |
| `Restrictions.RestrictionOptions` | src/App.tsx:12-21 | a new option list holds each tag exactly once, in the order budget, price cap, country, fast charging. Each entry has that language's label, and no entry is disabled |
| `Savings.BudgetSavings` | src/App.tsx:349-353 | 0 unless the budget tag is requested and the budget is truthy. Otherwise the figure plus the fleet's yearly budget `12·budget·carCount` equals one car's cost `0.09·mileage`. There is no clamp: the figure is negative exactly when `12·budget·carCount > 0.09·mileage` |
| `Savings.PriceCapSavings` | src/App.tsx:355-358 | 0 unless the price-cap tag is requested and the cap is truthy. Otherwise it is `0.13·cap·mileage·carCount`, proportional to the cap itself |
| `Savings.CountrySavings` | src/App.tsx:363-370 | `42.5·carCount` when the one allowed country is `"BE"`. It is 0 for no country, one other country, or two or more countries. The `country_restriction` tag plays no part |
| `Savings.FastChargingSavings` | src/App.tsx:375-378 | `0.024·mileage·carCount` when the fast-charging tag is requested, and 0 otherwise |
| `Savings.ComputeSavings` | src/App.tsx:336-394 | each of the four fields is its contribution: `BudgetSavings`, `PriceCapSavings`, `CountrySavings` and `FastChargingSavings` of the input. The total is the four figures plus `78·carCount`. Each figure is non-zero only when its guard holds. With no restrictions and no countries, all four figures are 0 and the total is exactly `78·carCount` |
| `Savings.SavingsOnChange` | src/App.tsx:69-75 | the result is absent exactly when the car count or the mileage is not truthy. Otherwise it is the calculator's result on the current values |
| `Savings.CommentBudgetSavings` | src/App.tsx:347 | the budget formula the comment describes: 0 when the guard fails, otherwise `(0.09·mileage − 12·budget)·carCount` |
| `Savings.CommentPriceCapSavings` | src/App.tsx:348 | the price-cap formula the comment describes: 0 when the guard fails, otherwise `0.2·(0.65 − cap)·mileage·carCount` |
| `Savings.BudgetCodeVersusComment` | src/App.tsx:347-353 | the code's budget figure is the comment's plus `0.09·mileage·(1 − carCount)`. They agree exactly when `carCount = 1` or the mileage is 0 |
| `Savings.PriceCapCodeVersusComment` | src/App.tsx:348-358 | for positive mileage and car count, raising the cap raises the code's figure and lowers the comment's |
| `Savings.PriceCapAgreement` | src/App.tsx:348-358 | the code's and the comment's price-cap figures agree exactly when the cap is 13/33, the mileage is 0, or the car count is 0 |
| `Savings.BudgetExample` | src/App.tsx:347-353 | 10 cars, mileage 20000, budget 50: the code gives −4200 (total −3420) where the comment gives 12000 |
| `Savings.PriceCapExample` | src/App.tsx:348-358 | 10 cars, mileage 20000, cap 0.30: the code gives 7800 where the comment gives 14000 |
| `RestrictionController.DisableEntry` | src/App.tsx:92-95 | the rewritten entry keeps its tag and label. It is disabled exactly when it was already disabled or its tag is the one being disabled |
| `RestrictionController.DisableMatching` | src/App.tsx:91-103 | the mapped list has the same length and order, tags and labels. An entry is disabled exactly when it was already disabled or carries the targeted tag |
| `RestrictionController.NextOptions` | src/App.tsx:87-106 | a requested budget disables exactly the price-cap entry. Otherwise a requested price cap disables exactly the budget entry. Otherwise the list is unchanged. Count, order, tags and labels are kept, and no flag is cleared |
| `RestrictionController.DisabledStaysDisabled` | src/App.tsx:87-109 | over any sequence of selection changes, the list keeps its entries, tags and labels, and a disabled entry stays disabled |
| `RestrictionController.OptionsAfterConcat` | src/App.tsx:87-106 | running the handler over one history of selections and then another gives the same list as running it over the two joined |
| `RestrictionController.PriceCapStaysDisabled` | src/App.tsx:90-106 | from a fresh list, after any earlier history, once a selection contains the budget (among any other tags), the price-cap entry is disabled and stays disabled through every later selection |
| `RestrictionController.BothEntriesCanEndDisabled` | src/App.tsx:87-106 | requesting the price cap and then the price cap with the budget leaves both entries disabled. This is the handler's answer to that request; whether the multi-select can send it is not modelled |
| `RestrictionController.RestrictionSelector.constructor` | src/App.tsx:44-47 | the initial state is the fresh option list and an empty selection |
| `RestrictionController.RestrictionSelector.SetLanguage` | src/App.tsx:63-65 | a language change rebuilds the list, with every flag cleared, and leaves the selection alone |
| `RestrictionController.RestrictionSelector.HandleRestrictionChange` | src/App.tsx:87-109 | the stored list becomes `NextOptions` of the old list and the request, and still holds the four tags in display order. The stored selection becomes the request, unchanged |

## Left out

- Rendering, styling, expand/collapse state and number formatting (`src/App.tsx:114-333`). This includes the render-time tag checks (111-112) and the "show only when > 0" rules for each figure. All of these are presentation.
- Language detection from the page URL (52-61), the translation tables and country display names. These are browser APIs and data modules. Labels are opaque strings passed in as `Labels`, and icons are dropped.
- Form registration and validation (`register`, `Controller`, `required`, `validate`), and the `watch`/effect dependency tracking. These are library behaviour. The effect at 69-75 is modelled only as a function of the watched values, and `setSavings` as that function's result.
- The multi-select component is not part of this model. Whether it stops the user from selecting a disabled option is therefore not modelled. Nothing in the model keeps the budget and price-cap contributions from applying together.
- The contents of `euroCountries`. Country codes are plain strings.
- NaN from `valueAsNumber`. Optional numbers are `Option<real>`, truthy when present and non-zero.
- `Savings.ComputeSavings`: computes with exact reals, not IEEE doubles, so floating-point rounding is not modelled.
- `src/main.tsx` (mounting into the page), `tailwind.config.ts` and `prettier.config.js`. These are plumbing and build configuration with no logic.
