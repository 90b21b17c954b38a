# Raitocraft crafting-profit core in Dafny

Raitocraft is a browser tool for players of a crafting game. A recipe yields
`quantity_produced` items per pack and can be sold to the NPC for a fixed
`npc_sell_price` per pack. Its materials are `profession` (made by the player),
`drop` or `buy` (acquired on the market). When the player calculates a recipe,
they type how many packs they want. For every market material they enter the
lots they bought, each a (price, quantity) pair, and they enter the price the
finished pack sells for on the market. The tool then:

- checks each material's lots against the quantity it needs;
- averages the lot prices;
- computes the crafting cost and the market and NPC revenue and profit;
- shows a verdict and a profit percentage.

Recipes are created and edited through two forms that validate their material
rows and header before calling the recipe service.

This project models that core:

| module | Dafny file | what it models |
|---|---|---|
| `Wrappers` | wrappers.dfy | `Option` / `Result` |
| `Sums` | sums.dfy | a sum over a sequence, with the algebra the proofs need (append, permutation, monotonicity, scaling) |
| `Recipes` | recipes.dfy | materials, material types, recipes, `Array.find` by name, the `\|\| 0` default |
| `Calculator` | calculator.dfy | js/calculator.js: `calculateCraftingCost` (method and specification), `calculateProfit`, `formatCurrency`, and the profession-aware cost the calculation modal evidently intends |
| `LotReconciler` | lot_reconciler.dfy | js/views/calculateView.js: the three-state lot check `validateAndUpdateLotInputs` and the weighted-average loop of `handleModalConfirm` |
| `CalculateView` | calculate_view.dfy | js/views/calculateView.js: the profession-cost collection, `updateDynamicModalValues`, the ordered gate of `handleModalConfirm`, and the verdict, percentage and per-profession-material rules of `displayModalResults` |
| `Ui` | ui.dfy | js/ui.js: `getMaterialsData` |
| `RecipeForm`, `InsertView`, `EditView` | recipe_form.dfy, insert_view.dfy, edit_view.dfy | js/views/insertView.js and js/views/editView.js: the guard chains of `handleInsertSubmit` and `handleEditSubmit` up to `createItem` / `updateItem` |

The modelling choices:

- The DOM is replaced by parsed values. A text field that `parseInt` or
  `parseFloat` reads becomes an `Option` (None = NaN), and the source's `|| 0`
  becomes `OrZero` / `OrZeroReal`.
- A material row of the modal is a `ModalRow` value. A CSS state class set on
  a lot input becomes the `mark` field of the returned lot.
- Money is `real` (exact). Quantities and packs are unbounded `int`.
- Loops that accumulate in the source are methods with `for`/`while` loops,
  each proved equal to a specification function:
  - `CalculateCraftingCost`
  - `ValidateAndUpdateLotInputs`
  - `WeightedAverage`
  - `CollectProfessionCosts`
  - `UpdateDynamicModalValues`
  - `FindInvalidMaterial`, `AverageMarketPrices` and `HandleModalConfirm`
  - `GetMaterialsData`

  The properties are then proved about those functions.

Two places where the code does not do what its own text says. The model
follows the code:

- The warning at js/calculator.js:22 says a missing or negative market price
  is replaced by 0 ("Usando 0"). The code at line 26 keeps a negative price,
  because `|| 0` only replaces falsy values.
- The header comment of js/views/calculateView.js (lines 2-3) and the comment
  at line 331 say the collected profession costs are passed to
  `calculateCraftingCost`. The call at line 332 does pass them, but as a fourth
  argument the function does not declare (js/calculator.js:9). So a profession
  material always costs 0.

Both are listed under Findings. The modal's gate (`ModalConfirm`) keeps the
as-written engine, since that is what the program computes. The corrected
engine is `IntendedCraftingCost`.

## Model

| member | source | states |
|---|---|---|
| Calculator.CalculateCraftingCost | js/calculator.js:9-32 | returns 0 for a missing recipe, missing materials or packs <= 0; otherwise the loop's total equals the sum of every material's contribution (`CraftingCost`) |
| Calculator.CostOnlyFromPurchased | js/calculator.js:17-29 | the cost equals the cost of the 'drop'/'buy' materials alone: 'profession' and any other type contribute nothing, and no profession cost is consulted |
| Calculator.CostOfOneMoreMaterial | js/calculator.js:19-27 | one more material adds quantity x packs x its supplied price for 'drop'/'buy' (0 when no price was supplied) and nothing otherwise |
| Calculator.NegativePriceLowersCost | js/calculator.js:21-26 | a supplied negative price is used, not replaced by 0, so a purchased material with such a price strictly lowers the total |
| Calculator.CostNonnegative | js/calculator.js:17-31 | with all supplied prices and all quantities >= 0, the cost is >= 0 |
| Calculator.CostIndependentOfOrder | js/calculator.js:17-31 | two material lists that are permutations of each other cost the same |
| Calculator.CostScalesWithPacks | js/calculator.js:25-26 | the cost of n packs is n times the cost of one pack |
| Calculator.CalculateProfit | js/calculator.js:42-60 | all four figures are 0 for a missing recipe or packs <= 0; otherwise market revenue = supplied total or 0, NPC revenue = (NPC price or 0) x packs, and each profit plus the cost is its revenue |
| Calculator.ProfitSignAndCost | js/calculator.js:56-59 | a profit is negative exactly when the cost exceeds that channel's revenue, and raising the cost lowers both profits by the same amount |
| Calculator.FormatCurrency | js/calculator.js:67-72 | a non-number renders as "0"; a number renders as a decimal integer k with k <= value < k + 1, i.e. its floor; the identical `formatCurrency` of ui.js (lines 191-194) is this same function |
| Calculator.DigitsRoundTrip | js/calculator.js:71 | the decimal digits of a natural number read back as that number |
| Calculator.RenderRoundTrip | js/calculator.js:71 | a rendered integer parses back to itself, so the displayed text determines the integer |
| Calculator.RenderInjective | js/calculator.js:71 | distinct integers render differently |
| Calculator.FormatCurrencyOfFloor | js/calculator.js:67-72 | formatting an already floored value gives the same text as formatting the value |
| Calculator.FormatCurrencyDistinguishes | js/calculator.js:67-72 | two numbers format alike exactly when their floors are equal |
| Calculator.ClampedPrice | js/calculator.js:21-23 | the corrected price: never negative, the supplied price when it is >= 0, and 0 when it is missing or negative, as the warning promises |
| Calculator.IntendedCostNonnegative | js/views/calculateView.js:332 | the corrected cost is >= 0 for any prices and profession costs, given non-negative quantities |
| Calculator.IntendedCostOfOneMoreMaterial | js/views/calculateView.js:292-303 | in the corrected cost a 'profession' material adds quantity x packs x its collected cost, or nothing when none was collected |
| Calculator.IntendedCostIgnoresNegativePrice | js/calculator.js:21-23 | in the corrected cost a purchased material with a negative price adds nothing |
| Calculator.IntendedCostAgreesWithoutOverrides | js/calculator.js:9-32 | with no negative price and no collected profession cost, the corrected cost equals the as-written cost |
| Calculator.ProfessionOverrideScenario | js/views/calculateView.js:332 | 2 profession units per pack at a collected cost of 7 over 3 packs cost 42 in the corrected engine and 0 as written |
| LotReconciler.Classify | js/views/calculateView.js:56-59 | valid iff sum == needed; warning iff 0 <= sum < needed; invalid iff the sum exceeds the need or is negative (and differs from it) |
| LotReconciler.ValidateAndUpdateLotInputs | js/views/calculateView.js:45-64 | returns the lots as `MarkedLots` gives them: with no lots or an unparsable total every state is cleared; otherwise every lot carries the one state of its sum |
| LotReconciler.MarkedLotsUniform | js/views/calculateView.js:60-63 | after validation every lot shows the same single state, that state is the classification of the total, and prices and quantities are unchanged |
| LotReconciler.MarkedLotsInvalid | js/views/calculateView.js:54-63 | some lot shows invalid exactly when there are lots, the total is known and the classification is invalid |
| LotReconciler.UnparsableLotCountsZero | js/views/calculateView.js:55 | a lot quantity that does not parse adds 0 to the sum |
| LotReconciler.WeightedAverage | js/views/calculateView.js:314-320 | the loop's result equals `AveragePrice`: Σ(price x qty) / Σqty over the lots with qty > 0 and price >= 0, or 0 when none qualifies |
| LotReconciler.AveragePriceBounds | js/views/calculateView.js:314-320 | the average is >= 0 and lies between any bounds of the qualifying prices, and it is 0 when no lot qualifies |
| LotReconciler.AveragePriceNonnegative | js/views/calculateView.js:314-320 | the average price is never negative |
| LotReconciler.AveragePriceIndependentOfOrder | js/views/calculateView.js:314-320 | reordering the lots does not change the average |
| LotReconciler.AveragePriceSplitLot | js/views/calculateView.js:314-320 | splitting one lot into two at the same price does not change the average |
| LotReconciler.NegativePriceLotIgnored | js/views/calculateView.js:318 | a lot with a negative price is left out of both sums, so the average is unchanged |
| LotReconciler.UnparsablePriceLotIsFree | js/views/calculateView.js:317-318 | a lot whose price does not parse counts as price 0: it adds its quantity to the weight and nothing to the cost |
| CalculateView.ToggleCostArea | js/views/calculateView.js:184-195 | the button flips visibility, and hiding resets the value to 0 |
| CalculateView.ProfessionCosts | js/views/calculateView.js:292-303 | every recorded cost is >= 0 and comes from a visible, named, numeric input; every such input is recorded, and the last one of a name wins |
| CalculateView.CollectProfessionCosts | js/views/calculateView.js:292-303 | the loop builds exactly `ProfessionCosts` |
| CalculateView.HiddenAreaRecordsNothing | js/views/calculateView.js:184-195 | a hidden area records no cost, and showing it again records 0 |
| CalculateView.HeaderValues | js/views/calculateView.js:226-229 | an unparsable pack count shows 0 packs, 0 items and an NPC total of 0; a parsed count p shows p packs, p x (quantity_produced or 1) items and an NPC total of (NPC price or 0) x p |
| CalculateView.ProducedPerPack | js/views/calculateView.js:227 | `quantity_produced || 1`: never 0, the recipe's value when it is non-zero, and 1 when it is missing or 0 |
| CalculateView.RefreshRow | js/views/calculateView.js:236-255 | a row with a readable base quantity, a name and a recipe material now needs base x packs; a 'drop'/'buy' (non-profession) row's lots are re-marked against that total, a profession row's lots are kept as they are; a row failing that test is returned unchanged; name, base quantity and cost area are always kept |
| CalculateView.UpdateDynamicModalValues | js/views/calculateView.js:224-258 | the header follows the packs (`parseInt || 0`); every row with a readable base quantity and a recipe material needs base x packs, and its lots are revalidated unless it is 'profession'; other rows are unchanged |
| CalculateView.HeaderNpcTotalIsNpcRevenue | js/views/calculateView.js:228-229 | total items = packs x (quantity_produced or 1), and the NPC total shown equals the NPC revenue of the confirmed calculation |
| CalculateView.FirstBlocked | js/views/calculateView.js:276-289 | the first 'drop'/'buy' row with a lot in the invalid state, or none when no row blocks |
| CalculateView.MarketAverages | js/views/calculateView.js:310-322 | one non-negative average per 'drop'/'buy' row name and no other key |
| CalculateView.MarketAverageOfRow | js/views/calculateView.js:313-320 | the price stored under a 'drop'/'buy' row's name, when no later such row has that name, is the weighted average `AveragePrice` of that row's lots |
| CalculateView.ModalConfirm | js/views/calculateView.js:265-337 | no recipe iff ignored; with a recipe, an unparsable or non-positive pack count is refused before anything else; then the first 'drop'/'buy' row with an invalid lot is refused, ahead of the sell price; a missing or negative sell price is then refused as an invalid sell price; the calculation runs iff packs > 0, no row blocks and the sell price parses and is >= 0, and its report holds the packs, the market averages of the rows, the collected profession costs, the as-written cost at those averages and the profits with market revenue = sell price x packs |
| CalculateView.FindInvalidMaterial | js/views/calculateView.js:276-289 | the loop with its validity flag and break stops at exactly `FirstBlocked` |
| CalculateView.AverageMarketPrices | js/views/calculateView.js:310-322 | the averaging loop builds exactly `MarketAverages` |
| CalculateView.HandleModalConfirm | js/views/calculateView.js:265-343 | the outcome equals `ModalConfirm`: no recipe is ignored, then bad packs, then the first invalid lot, then a bad sell price are refused in that order, otherwise the report holds the engine's cost and profits with market revenue = price x packs |
| CalculateView.WarningNeverBlocks | js/views/calculateView.js:276-289 | with valid packs and sell price and no lot shown invalid, the calculation runs: the warning state never blocks |
| CalculateView.ConfirmedCostNonnegative | js/views/calculateView.js:310-337 | a confirmed calculation has a non-negative cost, a market revenue of price x packs and a profit of revenue minus cost |
| CalculateView.MarketAveragesSameLots | js/views/calculateView.js:310-322 | the averages depend only on the rows' names and lots, not on their cost areas |
| CalculateView.FirstBlockedSameLots | js/views/calculateView.js:276-289 | the lot check depends only on the rows' names and lots, not on their cost areas |
| CalculateView.ProfessionCostsDoNotReachCost | js/views/calculateView.js:332 | changing only the profession cost inputs changes only the reported profession costs: the outcome, the cost and the profits stay the same |
| CalculateView.RefreshedRowBlocks | js/views/calculateView.js:241-249 | after the packs are applied, a 'drop'/'buy' row blocks exactly when it has lots whose sum is classified invalid against base x packs |
| CalculateView.ConfirmAfterRefresh | js/views/calculateView.js:276-289 | after a refresh, the gate refuses on a lot exactly when some 'drop'/'buy' material's lots exceed its need or add up to a negative total |
| CalculateView.Verdict | js/views/calculateView.js:355-356 | "(Compensa)" iff profit > 0, "(Não Compensa)" iff profit < 0, "(Neutro)" iff profit = 0; the success colour iff profit >= 0 |
| CalculateView.ProfitPercentage | js/views/calculateView.js:357-363 | a percentage iff the cost > 0, with percentage x cost = profit x 100 and a sign and colour that follow the profit; "(∞%)" iff cost <= 0 and profit > 0; "- %" otherwise |
| CalculateView.PercentageAtLeastMinusHundred | js/views/calculateView.js:360 | with a positive cost and a non-negative revenue the percentage is at least -100 |
| CalculateView.FirstProfession | js/views/calculateView.js:365 | the first 'profession' material of the list, or none when there is none |
| CalculateView.ProfitPerProfessionMaterial | js/views/calculateView.js:364-372 | the line is hidden iff there is no profession material or packs <= 0; otherwise it names the first one, gives profit / (quantity x packs) when that count is positive, in the success colour for a gain and the danger colour for a loss, and "N/A" in the inherited colour otherwise |
| CalculateView.EndToEndScenario | js/views/calculateView.js:265-343 | 5 'buy' units per pack, 2 packs, lots of 6 at 3 and 4 at 5: average 3.8, cost 38, NPC revenue 200, NPC profit 162 |
| CalculateView.ProfessionCostIgnoredScenario | js/views/calculateView.js:292-337 | a visible profession cost of 7 is reported but the total cost is 0; the corrected engine charges 42 |
| Recipes.ParseMaterialType | js/ui.js:171 | the three type tags map to their types, and any other tag is kept as an unknown type |
| Recipes.FindMaterial | js/views/calculateView.js:239 | the first material of the given name, or none iff no material has it |
| Ui.ToMaterial | js/ui.js:175-181 | the record keeps the name and the positive quantity; its NPC reference price is 0 for 'profession' and for an unparsable or negative price, otherwise the parsed price |
| Ui.MaterialsData | js/ui.js:154-184 | an empty form gives an empty list, not null |
| Ui.GetMaterialsData | js/ui.js:153-185 | null iff some entry has an empty name, a quantity that is missing or <= 0, or an unknown type; otherwise one record per entry in input order |
| RecipeForm.ValidateRecipeForm | js/views/insertView.js:51-72 | in order: null materials, then an empty name or a quantity produced that does not parse or is <= 0, then an empty list are refused; otherwise the draft holds the name, the quantity, the NPC price or 0, and the materials |
| InsertView.HandleInsertSubmit | js/views/insertView.js:43-84 | an invalid entry refuses before anything else; `createItem` is called iff every entry is valid, the name is non-empty, the quantity produced is positive and there is a material, with those values |
| EditView.HandleEditSubmit | js/views/editView.js:221-268 | an empty item id is refused first, then an invalid entry; `updateItem` is called iff the id is present and all the insert checks pass, with the same id and the validated recipe |

## Left out

- DOM construction and event wiring are not modelled. This covers the modal and
  form builders, status messages and their timer, the delete confirmation and
  the page router. Only the decisions they feed are modelled.
- The recipe service (`apiService.js`) and the async loaders that await it are
  network I/O. Submissions end at the `CreateItem`/`UpdateItem` action.
- String parsing (`parseInt`, `parseFloat`, `trim`) is not modelled. Its
  results enter as `Option` values and trimmed names.
- The wording of status and error messages is not modelled; refusals are
  enum values.
- Locale formatting (`toLocaleString('pt-BR')` thousands grouping and
  `toFixed(1)`) is a foreign library. `FormatCurrency` renders the floor as a
  plain signed decimal. Percentages and per-material profits are exact reals
  without rounding.
- IEEE-754 numbers, NaN and Infinity in arithmetic are not modelled: money is
  exact `real`.
- Calculator.FormatCurrency: a JavaScript NaN or Infinity (both of type
  number) is not represented.
- The `calculationError` branch of `handleModalConfirm` is not modelled. It
  fires when a 'drop'/'buy' row has no pairs container, which a row the modal
  built always has.
- The `try`/`catch` around the final calculation is not modelled. The modelled
  engine cannot throw.

## Findings

| source | as written | input that shows it | evidently intended | confidence | as-written member | corrected member |
|---|---|---|---|---|---|---|
| js/views/calculateView.js:332 | `calculateCraftingCost` is called with the collected profession costs as a fourth argument that it does not declare (js/calculator.js:9), so a profession material always costs 0 | 2 'profession' units per pack, a visible cost input of 7, 3 packs: cost 0 | the collected unit cost is charged: 2 x 3 x 7 = 42 | high, not executed | CalculateView.ProfessionCostIgnoredScenario | Calculator.IntendedCostOfOneMoreMaterial |
| js/calculator.js:21-26 | a negative unit price triggers the warning "Usando 0" but `marketPriceUnit \|\| 0` keeps it, so it lowers the cost | a 'buy' material of quantity 1, 1 pack, price -5: the material adds -5 | a missing or negative price counts as 0, as the warning says | medium, not executed (the modal's averages are never negative, so only a direct caller reaches it) | Calculator.NegativePriceLowersCost | Calculator.IntendedCostIgnoresNegativePrice |
