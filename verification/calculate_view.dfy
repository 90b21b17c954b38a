/** The calculation modal: the rows it shows per material, the optional unit
    cost of profession materials, the quantities recomputed when the pack
    count changes, the gate run on confirm, and the verdicts shown with the
    result. Page elements are replaced by the parsed values they hold, and
    changes to them by returned values. */
module CalculateView {
  import opened Wrappers
  import opened Recipes
  import opened Sums
  import opened Calculator
  import opened LotReconciler

  // ---------------------------------------------------------------------
  // Rows of the modal
  // ---------------------------------------------------------------------

  /** The hidden-by-default unit-cost area of a profession material and the
      parsed value of its input. */
  datatype CostArea = CostArea(visible: bool, value: Option<real>)

  /** The '+ Custo' / '- Custo' button: shows or hides the area; hiding it
      resets the input to "0". */
  function ToggleCostArea(a: CostArea): (b: CostArea)
    ensures b.visible == !a.visible
    ensures a.visible ==> b.value == Some(0.0)
    ensures !a.visible ==> b.value == a.value
  {
    if a.visible then CostArea(false, Some(0.0)) else CostArea(true, a.value)
  }

  /** One material row of the modal: its name, the base quantity per pack
      stored on it, the total it needs (None until computed, or when the
      stored text does not parse), its lots ('drop'/'buy') and its cost area
      ('profession'). */
  datatype ModalRow = ModalRow(
    name: string,
    baseQuantity: Option<int>,
    totalNeeded: Option<int>,
    lots: seq<LotInput>,
    costArea: Option<CostArea>)

  // ---------------------------------------------------------------------
  // Profession costs
  // ---------------------------------------------------------------------

  /** A row whose cost area is shown, named, and holds a number >= 0. */
  predicate RecordsCost(r: ModalRow)
  {
    && r.costArea.Some? && r.costArea.value.visible && r.name != ""
    && r.costArea.value.value.Some? && r.costArea.value.value.value >= 0.0
  }

  /** The unit cost a recording row supplies. */
  function CostOf(r: ModalRow): real
    requires RecordsCost(r)
  {
    r.costArea.value.value.value
  }

  /** The profession costs collected from the rows, a later row overriding an
      earlier one of the same name. Every recorded cost comes from a visible,
      valid input, and every such input that is the last for its name is
      recorded. */
  function ProfessionCosts(rows: seq<ModalRow>): (costs: map<string, real>)
    ensures forall k :: k in costs ==> costs[k] >= 0.0
    ensures forall k :: k in costs ==>
              exists i :: 0 <= i < |rows| && RecordsCost(rows[i]) && rows[i].name == k && CostOf(rows[i]) == costs[k]
    ensures forall i :: 0 <= i < |rows| && RecordsCost(rows[i]) ==> rows[i].name in costs
    ensures forall i :: 0 <= i < |rows| && RecordsCost(rows[i])
              && (forall j :: i < j < |rows| && RecordsCost(rows[j]) ==> rows[j].name != rows[i].name)
              ==> costs[rows[i].name] == CostOf(rows[i])
  {
    if |rows| == 0 then map[]
    else
      var prev := ProfessionCosts(rows[..|rows| - 1]);
      var last := rows[|rows| - 1];
      assert forall i :: 0 <= i < |rows| - 1 ==> rows[..|rows| - 1][i] == rows[i];
      if RecordsCost(last) then prev[last.name := CostOf(last)] else prev
  }

  /** The profession-cost loop of `handleModalConfirm`. */
  method CollectProfessionCosts(rows: seq<ModalRow>) returns (professionCosts: map<string, real>)
    ensures professionCosts == ProfessionCosts(rows)
  {
    professionCosts := map[];
    for i := 0 to |rows|
      invariant professionCosts == ProfessionCosts(rows[..i])
    {
      assert rows[..i + 1][..i] == rows[..i];
      var area := rows[i].costArea;
      if area.Some? && area.value.visible {
        var cost := area.value.value;
        if rows[i].name != "" && cost.Some? && cost.value >= 0.0 {
          professionCosts := professionCosts[rows[i].name := cost.value];
        }
      }
    }
    assert rows[..|rows|] == rows;
  }

  /** Hiding a cost area withdraws its cost; showing it again records 0,
      because hiding reset the input. */
  lemma HiddenAreaRecordsNothing(before: seq<ModalRow>, r: ModalRow, after: seq<ModalRow>)
    requires r.costArea.Some? && r.costArea.value.visible && r.name != ""
    ensures var hidden := r.(costArea := Some(ToggleCostArea(r.costArea.value)));
            && !RecordsCost(hidden)
            && var shown := hidden.(costArea := Some(ToggleCostArea(hidden.costArea.value)));
               RecordsCost(shown) && CostOf(shown) == 0.0
  {
  }

  // ---------------------------------------------------------------------
  // Quantities that follow the pack count
  // ---------------------------------------------------------------------

  /** `quantity_produced || 1`. */
  function ProducedPerPack(recipe: Recipe): (n: int)
    ensures n != 0
    ensures recipe.quantityProduced.Some? && recipe.quantityProduced.value != 0 ==> n == recipe.quantityProduced.value
    ensures recipe.quantityProduced.None? || recipe.quantityProduced.value == 0 ==> n == 1
  {
    if recipe.quantityProduced.None? || recipe.quantityProduced.value == 0 then 1
    else recipe.quantityProduced.value
  }

  /** The figures at the top of the modal. */
  datatype ModalHeader = ModalHeader(packs: int, totalItems: int, totalNpcPrice: real)

  /** The header figures for the pack count typed so far (`parseInt || 0`). */
  function HeaderValues(recipe: Recipe, packsInput: Option<int>): (h: ModalHeader)
    ensures packsInput.None? ==> h == ModalHeader(0, 0, 0.0)
    ensures packsInput.Some? ==> && h.packs == packsInput.value
                                 && h.totalItems == packsInput.value * ProducedPerPack(recipe)
                                 && h.totalNpcPrice == OrZeroReal(recipe.npcSellPrice) * packsInput.value as real
  {
    var packs := OrZero(packsInput);
    ModalHeader(packs, packs * ProducedPerPack(recipe), OrZeroReal(recipe.npcSellPrice) * packs as real)
  }

  /** One row after the pack count changed: with a readable base quantity and
      a recipe material of its name, it needs base quantity times packs, and
      for a material that is not 'profession' its lots are validated against
      that; any other row is left as it was. */
  function RefreshRow(ms: seq<Material>, packs: int, row: ModalRow): (r: ModalRow)
    ensures r.name == row.name && r.baseQuantity == row.baseQuantity && r.costArea == row.costArea
    ensures |r.lots| == |row.lots|
    ensures row.baseQuantity.Some? && row.name != "" && FindMaterial(ms, row.name).Some?
            ==> r.totalNeeded == Some(row.baseQuantity.value * packs)
    ensures row.baseQuantity.Some? && row.name != "" && FindMaterial(ms, row.name).Some?
            ==> r.lots == (if FindMaterial(ms, row.name).value.materialType != Profession
                           then MarkedLots(Some(row.baseQuantity.value * packs), row.lots)
                           else row.lots)
    ensures !(row.baseQuantity.Some? && row.name != "" && FindMaterial(ms, row.name).Some?) ==> r == row
  {
    var m := FindMaterial(ms, row.name);
    if row.baseQuantity.Some? && row.name != "" && m.Some? then
      var needed := row.baseQuantity.value * packs;
      if m.value.materialType != Profession then
        row.(totalNeeded := Some(needed), lots := MarkedLots(Some(needed), row.lots))
      else row.(totalNeeded := Some(needed))
    else row
  }

  /** `updateDynamicModalValues`. */
  method UpdateDynamicModalValues(recipe: Recipe, packsInput: Option<int>, rows: seq<ModalRow>)
    returns (header: ModalHeader, refreshed: seq<ModalRow>)
    requires recipe.materials.Some?
    ensures header == HeaderValues(recipe, packsInput)
    ensures |refreshed| == |rows|
    ensures forall i :: 0 <= i < |rows| ==> refreshed[i] == RefreshRow(recipe.materials.value, header.packs, rows[i])
  {
    var desiredPacks := OrZero(packsInput);
    var baseQuantityProduced := ProducedPerPack(recipe);
    header := ModalHeader(desiredPacks, desiredPacks * baseQuantityProduced,
                          OrZeroReal(recipe.npcSellPrice) * desiredPacks as real);
    var ms := recipe.materials.value;
    refreshed := [];
    for i := 0 to |rows|
      invariant |refreshed| == i
      invariant forall j :: 0 <= j < i ==> refreshed[j] == RefreshRow(ms, desiredPacks, rows[j])
    {
      var li := rows[i];
      var recipeMaterial := FindMaterial(ms, li.name);
      if li.baseQuantity.Some? && li.name != "" && recipeMaterial.Some? {
        var newTotalQuantity := li.baseQuantity.value * desiredPacks;
        li := li.(totalNeeded := Some(newTotalQuantity));
        if recipeMaterial.value.materialType != Profession {
          var lots := ValidateAndUpdateLotInputs(li.totalNeeded, li.lots);
          li := li.(lots := lots);
        }
      }
      refreshed := refreshed + [li];
    }
  }

  /** The NPC total shown while the pack count is typed is the NPC revenue the
      confirmed calculation reports for the same packs. */
  lemma HeaderNpcTotalIsNpcRevenue(recipe: Recipe, packs: int, cost: real, market: Option<real>)
    requires packs > 0
    ensures HeaderValues(recipe, Some(packs)).totalNpcPrice
         == CalculateProfit(cost, Some(recipe), market, packs).totalRevenueNPC
    ensures HeaderValues(recipe, Some(packs)).totalItems == packs * ProducedPerPack(recipe)
  {
  }

  // ---------------------------------------------------------------------
  // The confirm gate
  // ---------------------------------------------------------------------

  /** A row whose recipe material (the first of its name) is 'drop' or 'buy'. */
  predicate PurchasedRow(ms: seq<Material>, r: ModalRow)
  {
    var m := FindMaterial(ms, r.name);
    m.Some? && IsPurchased(m.value.materialType)
  }

  /** A 'drop'/'buy' row with a lot shown in the invalid state. */
  predicate RowBlocks(ms: seq<Material>, r: ModalRow)
  {
    PurchasedRow(ms, r) && exists j :: 0 <= j < |r.lots| && r.lots[j].mark == Some(LotInvalid)
  }

  /** The first blocking row at or after `from`. */
  function FirstBlocked(ms: seq<Material>, rows: seq<ModalRow>, from: nat): (r: Option<nat>)
    requires from <= |rows|
    ensures r.Some? ==> from <= r.value < |rows| && RowBlocks(ms, rows[r.value])
                        && forall j :: from <= j < r.value ==> !RowBlocks(ms, rows[j])
    ensures r.None? <==> forall j :: from <= j < |rows| ==> !RowBlocks(ms, rows[j])
    decreases |rows| - from
  {
    if from == |rows| then None
    else if RowBlocks(ms, rows[from]) then Some(from)
    else FirstBlocked(ms, rows, from + 1)
  }

  /** The weighted average price of every 'drop'/'buy' row, by name (a later
      row of the same name overriding an earlier one). */
  function MarketAverages(ms: seq<Material>, rows: seq<ModalRow>): (avgs: map<string, real>)
    ensures forall k :: k in avgs ==> avgs[k] >= 0.0
    ensures forall k :: k in avgs <==> exists i :: 0 <= i < |rows| && rows[i].name == k && PurchasedRow(ms, rows[i])
  {
    if |rows| == 0 then map[]
    else
      var prev := MarketAverages(ms, rows[..|rows| - 1]);
      var last := rows[|rows| - 1];
      assert forall i :: 0 <= i < |rows| - 1 ==> rows[..|rows| - 1][i] == rows[i];
      if PurchasedRow(ms, last) then
        AveragePriceNonnegative(last.lots);
        prev[last.name := AveragePrice(last.lots)]
      else prev
  }

  /** The price the averages hold for a 'drop'/'buy' row that no later
      'drop'/'buy' row of the same name overrides is the weighted average of
      that row's lots. */
  lemma {:induction false} MarketAverageOfRow(ms: seq<Material>, rows: seq<ModalRow>, i: nat)
    requires i < |rows| && PurchasedRow(ms, rows[i])
    requires forall j :: i < j < |rows| && PurchasedRow(ms, rows[j]) ==> rows[j].name != rows[i].name
    ensures rows[i].name in MarketAverages(ms, rows)
    ensures MarketAverages(ms, rows)[rows[i].name] == AveragePrice(rows[i].lots)
    decreases |rows|
  {
    var init := rows[..|rows| - 1];
    if i < |rows| - 1 {
      assert init[i] == rows[i];
      forall j | i < j < |init| && PurchasedRow(ms, init[j])
        ensures init[j].name != init[i].name
      {
        assert init[j] == rows[j];
      }
      MarketAverageOfRow(ms, init, i);
    }
  }

  /** Why a confirmation was refused. */
  datatype Rejection = InvalidPacks | LotExceedsNeeded(material: string) | InvalidSellPrice

  /** What a confirmed calculation produced: the packs, the averaged unit
      prices, the profession costs collected, the total cost and the profits. */
  datatype CalculationReport = CalculationReport(
    packs: int,
    averagePrices: map<string, real>,
    professionCosts: map<string, real>,
    totalCost: real,
    profit: ProfitResult)

  /** `Ignored` when no recipe is loaded. */
  datatype ConfirmOutcome = Ignored | Rejected(reason: Rejection) | Calculated(report: CalculationReport)

  /** What confirming the modal does, in order: no recipe does nothing; a
      pack count that does not parse or is not positive is refused; then the
      first 'drop'/'buy' row with an invalid lot is refused; then a market sell
      price that does not parse or is negative is refused; otherwise the cost
      is computed from the averaged prices and the profit from the per-pack
      market price times the packs. */
  function ModalConfirm(recipe: Option<Recipe>, packsInput: Option<int>, rows: seq<ModalRow>, sellPriceInput: Option<real>): (o: ConfirmOutcome)
    requires recipe.Some? ==> recipe.value.materials.Some?
    ensures recipe.None? <==> o.Ignored?
    ensures recipe.Some? && (packsInput.None? || packsInput.value <= 0) ==> o == Rejected(InvalidPacks)
    ensures recipe.Some? && packsInput.Some? && packsInput.value > 0
            && FirstBlocked(recipe.value.materials.value, rows, 0).Some?
            ==> o == Rejected(LotExceedsNeeded(rows[FirstBlocked(recipe.value.materials.value, rows, 0).value].name))
    ensures o.Calculated? <==>
              && recipe.Some? && packsInput.Some? && packsInput.value > 0
              && FirstBlocked(recipe.value.materials.value, rows, 0).None?
              && sellPriceInput.Some? && sellPriceInput.value >= 0.0
    ensures recipe.Some? && packsInput.Some? && packsInput.value > 0
            && FirstBlocked(recipe.value.materials.value, rows, 0).None?
            && (sellPriceInput.None? || sellPriceInput.value < 0.0)
            ==> o == Rejected(InvalidSellPrice)
    ensures o.Calculated? ==>
              && o.report.packs == packsInput.value
              && o.report.averagePrices == MarketAverages(recipe.value.materials.value, rows)
              && o.report.professionCosts == ProfessionCosts(rows)
              && o.report.totalCost == CraftingCost(recipe, o.report.averagePrices, o.report.packs)
              && o.report.profit == CalculateProfit(o.report.totalCost, recipe,
                                                    Some(sellPriceInput.value * o.report.packs as real), o.report.packs)
  {
    if recipe.None? then Ignored
    else if packsInput.None? || packsInput.value <= 0 then Rejected(InvalidPacks)
    else
      var ms := recipe.value.materials.value;
      match FirstBlocked(ms, rows, 0)
      case Some(i) => Rejected(LotExceedsNeeded(rows[i].name))
      case None =>
        if sellPriceInput.None? || sellPriceInput.value < 0.0 then Rejected(InvalidSellPrice)
        else
          var packs := packsInput.value;
          var avgs := MarketAverages(ms, rows);
          var totalCost := CraftingCost(recipe, avgs, packs);
          var totalMarketRevenue := sellPriceInput.value * packs as real;
          Calculated(CalculationReport(packs, avgs, ProfessionCosts(rows), totalCost,
                                       CalculateProfit(totalCost, recipe, Some(totalMarketRevenue), packs)))
  }

  /** The final lot check of `handleModalConfirm`: walks the rows and stops
      at the first 'drop'/'buy' row that shows an invalid lot. */
  method FindInvalidMaterial(ms: seq<Material>, rows: seq<ModalRow>) returns (blocked: Option<nat>)
    ensures blocked == FirstBlocked(ms, rows, 0)
  {
    var isOverallValid := true;
    var i := 0;
    while i < |rows|
      invariant 0 <= i <= |rows|
      invariant forall j :: 0 <= j < i ==> !RowBlocks(ms, rows[j])
    {
      var recipeMaterial := FindMaterial(ms, rows[i].name);
      if recipeMaterial.Some? && (recipeMaterial.value.materialType == Drop || recipeMaterial.value.materialType == Buy) {
        var isMaterialInvalid := exists j :: 0 <= j < |rows[i].lots| && rows[i].lots[j].mark == Some(LotInvalid);
        if isMaterialInvalid {
          isOverallValid := false;
          break;
        }
      }
      i := i + 1;
    }
    blocked := if isOverallValid then None else Some(i);
  }

  /** The averaging loop of `handleModalConfirm`: one weighted average per
      'drop'/'buy' row, stored under the row's name. */
  method AverageMarketPrices(ms: seq<Material>, rows: seq<ModalRow>) returns (marketPricesMaterialsAvg: map<string, real>)
    ensures marketPricesMaterialsAvg == MarketAverages(ms, rows)
  {
    marketPricesMaterialsAvg := map[];
    for k := 0 to |rows|
      invariant marketPricesMaterialsAvg == MarketAverages(ms, rows[..k])
    {
      assert rows[..k + 1][..k] == rows[..k];
      var recipeMaterial := FindMaterial(ms, rows[k].name);
      if recipeMaterial.Some? && (recipeMaterial.value.materialType == Drop || recipeMaterial.value.materialType == Buy) {
        var avgPrice := WeightedAverage(rows[k].lots);
        marketPricesMaterialsAvg := marketPricesMaterialsAvg[rows[k].name := avgPrice];
      }
    }
    assert rows[..|rows|] == rows;
  }

  /** `handleModalConfirm`. */
  method HandleModalConfirm(recipe: Option<Recipe>, packsInput: Option<int>, rows: seq<ModalRow>, sellPriceInput: Option<real>)
    returns (outcome: ConfirmOutcome)
    requires recipe.Some? ==> recipe.value.materials.Some?
    ensures outcome == ModalConfirm(recipe, packsInput, rows, sellPriceInput)
  {
    if recipe.None? {
      return Ignored;
    }
    if packsInput.None? || packsInput.value <= 0 {
      return Rejected(InvalidPacks);
    }
    var desiredPacks := packsInput.value;
    var ms := recipe.value.materials.value;
    var blocked := FindInvalidMaterial(ms, rows);
    if blocked.Some? {
      return Rejected(LotExceedsNeeded(rows[blocked.value].name));
    }
    var professionCosts := CollectProfessionCosts(rows);
    var marketPricesMaterialsAvg := AverageMarketPrices(ms, rows);
    if sellPriceInput.None? || sellPriceInput.value < 0.0 {
      return Rejected(InvalidSellPrice);
    }
    var marketSellPricePerPack := sellPriceInput.value;
    var totalCost := CalculateCraftingCost(recipe, marketPricesMaterialsAvg, desiredPacks);
    var totalMarketRevenue := marketSellPricePerPack * desiredPacks as real;
    var profitResults := CalculateProfit(totalCost, recipe, Some(totalMarketRevenue), desiredPacks);
    outcome := Calculated(CalculationReport(desiredPacks, marketPricesMaterialsAvg, professionCosts, totalCost, profitResults));
  }

  // ---------------------------------------------------------------------
  // What the gate guarantees
  // ---------------------------------------------------------------------

  /** A lot in the warning state (or no state) never blocks: with a valid
      pack count and sell price and no lot shown invalid, the calculation runs. */
  lemma WarningNeverBlocks(recipe: Recipe, packs: int, rows: seq<ModalRow>, sellPrice: real)
    requires recipe.materials.Some? && packs > 0 && sellPrice >= 0.0
    requires forall i, j :: 0 <= i < |rows| && 0 <= j < |rows[i].lots| ==> rows[i].lots[j].mark != Some(LotInvalid)
    ensures ModalConfirm(Some(recipe), Some(packs), rows, Some(sellPrice)).Calculated?
  {
    var ms := recipe.materials.value;
    forall i | 0 <= i < |rows|
      ensures !RowBlocks(ms, rows[i])
    {
    }
  }

  /** A confirmed calculation never reports a negative cost when the recipe's
      quantities are non-negative: the averaged prices it feeds the engine are
      never negative. Its market revenue is the per-pack price times the
      packs, and the reported profit is that revenue minus the cost. */
  lemma ConfirmedCostNonnegative(recipe: Recipe, packsInput: Option<int>, rows: seq<ModalRow>, sellPriceInput: Option<real>)
    requires recipe.materials.Some?
    requires forall i :: 0 <= i < |recipe.materials.value| ==> recipe.materials.value[i].quantity >= 0
    ensures var o := ModalConfirm(Some(recipe), packsInput, rows, sellPriceInput);
            o.Calculated? ==>
              && o.report.totalCost >= 0.0
              && o.report.profit.totalRevenueMarket == sellPriceInput.value * o.report.packs as real >= 0.0
              && o.report.profit.profitMarket == o.report.profit.totalRevenueMarket - o.report.totalCost
  {
    var o := ModalConfirm(Some(recipe), packsInput, rows, sellPriceInput);
    if o.Calculated? {
      var ms := recipe.materials.value;
      var avgs := MarketAverages(ms, rows);
      CostNonnegative(Some(recipe), avgs, packsInput.value);
      assert sellPriceInput.value * packsInput.value as real >= 0.0;
    }
  }

  /** Two lists of rows that agree on every name and every lot. */
  predicate SameLots(rows: seq<ModalRow>, rows': seq<ModalRow>)
  {
    |rows| == |rows'| && forall i :: 0 <= i < |rows| ==> rows[i].name == rows'[i].name && rows[i].lots == rows'[i].lots
  }

  lemma {:induction false} MarketAveragesSameLots(ms: seq<Material>, rows: seq<ModalRow>, rows': seq<ModalRow>)
    requires SameLots(rows, rows')
    ensures MarketAverages(ms, rows) == MarketAverages(ms, rows')
  {
    if |rows| > 0 {
      var n := |rows| - 1;
      assert SameLots(rows[..n], rows'[..n]);
      MarketAveragesSameLots(ms, rows[..n], rows'[..n]);
    }
  }

  lemma {:induction false} FirstBlockedSameLots(ms: seq<Material>, rows: seq<ModalRow>, rows': seq<ModalRow>, from: nat)
    requires SameLots(rows, rows') && from <= |rows|
    ensures FirstBlocked(ms, rows, from) == FirstBlocked(ms, rows', from)
    decreases |rows| - from
  {
    if from < |rows| {
      var r, r' := rows[from], rows'[from];
      assert r.name == r'.name && r.lots == r'.lots;
      assert RowBlocks(ms, r) == RowBlocks(ms, r');
      FirstBlockedSameLots(ms, rows, rows', from + 1);
    }
  }

  /** The profession costs the user enters are collected but reach neither
      the cost nor the profit: rows that differ only in their cost areas give
      the same outcome apart from the collected costs. */
  lemma ProfessionCostsDoNotReachCost(recipe: Recipe, packsInput: Option<int>, rows: seq<ModalRow>, rows': seq<ModalRow>, sellPriceInput: Option<real>)
    requires recipe.materials.Some? && SameLots(rows, rows')
    ensures var o, o' := ModalConfirm(Some(recipe), packsInput, rows, sellPriceInput), ModalConfirm(Some(recipe), packsInput, rows', sellPriceInput);
            && (!o.Calculated? ==> o' == o)
            && (o.Calculated? ==> o' == Calculated(o.report.(professionCosts := ProfessionCosts(rows'))))
  {
    var ms := recipe.materials.value;
    MarketAveragesSameLots(ms, rows, rows');
    FirstBlockedSameLots(ms, rows, rows', 0);
  }

  /** Once the pack count has been applied to a 'drop'/'buy' row with a
      readable base quantity, the row blocks the gate exactly when it has lots
      and their total is classified invalid against base quantity times packs. */
  lemma RefreshedRowBlocks(ms: seq<Material>, packs: int, row: ModalRow)
    requires row.baseQuantity.Some? && row.name != "" && PurchasedRow(ms, row)
    ensures RowBlocks(ms, RefreshRow(ms, packs, row))
            <==> |row.lots| > 0 && Classify(row.baseQuantity.value * packs, LotSum(row.lots)) == LotInvalid
  {
    MarkedLotsInvalid(Some(row.baseQuantity.value * packs), row.lots);
  }

  /** After the quantities follow a valid pack count, the gate refuses on a
      lot exactly when some 'drop'/'buy' material's lots add up to more than
      it needs (or to a negative total); a shortfall never refuses. */
  lemma ConfirmAfterRefresh(recipe: Recipe, packs: int, rows: seq<ModalRow>, sellPriceInput: Option<real>)
    requires recipe.materials.Some? && packs > 0
    requires forall i :: 0 <= i < |rows| ==> rows[i].baseQuantity.Some? && rows[i].name != ""
    ensures var ms := recipe.materials.value;
            var refreshed := seq(|rows|, i requires 0 <= i < |rows| => RefreshRow(ms, packs, rows[i]));
            var o := ModalConfirm(Some(recipe), Some(packs), refreshed, sellPriceInput);
            (o.Rejected? && o.reason.LotExceedsNeeded?)
            <==> exists i :: 0 <= i < |rows| && PurchasedRow(ms, rows[i]) && |rows[i].lots| > 0
                             && Classify(rows[i].baseQuantity.value * packs, LotSum(rows[i].lots)) == LotInvalid
  {
    var ms := recipe.materials.value;
    var refreshed := seq(|rows|, i requires 0 <= i < |rows| => RefreshRow(ms, packs, rows[i]));
    forall i | 0 <= i < |rows|
      ensures RowBlocks(ms, refreshed[i])
              <==> PurchasedRow(ms, rows[i]) && |rows[i].lots| > 0
                   && Classify(rows[i].baseQuantity.value * packs, LotSum(rows[i].lots)) == LotInvalid
    {
      if PurchasedRow(ms, rows[i]) {
        RefreshedRowBlocks(ms, packs, rows[i]);
      }
    }
  }

  // ---------------------------------------------------------------------
  // Displaying the result
  // ---------------------------------------------------------------------

  /** The colour a figure is shown in. */
  datatype Tone = SuccessColor | DangerColor | InheritColor

  /** The verdict next to a profit. */
  datatype VerdictText = VerdictText(text: string, tone: Tone)

  /** '(Compensa)' for a gain, '(Não Compensa)' for a loss, '(Neutro)' for
      neither; shown in the success colour unless it is a loss. */
  function Verdict(profit: real): (v: VerdictText)
    ensures v.text == "(Compensa)" <==> profit > 0.0
    ensures v.text == "(Não Compensa)" <==> profit < 0.0
    ensures v.text == "(Neutro)" <==> profit == 0.0
    ensures v.tone == SuccessColor <==> profit >= 0.0
    ensures v.tone == DangerColor <==> profit < 0.0
  {
    var text := if profit > 0.0 then "(Compensa)" else if profit < 0.0 then "(Não Compensa)" else "(Neutro)";
    VerdictText(text, if profit >= 0.0 then SuccessColor else DangerColor)
  }

  /** The market profit as a percentage of the cost: `Percent` (shown with
      one decimal), '(∞%)' as `Unbounded`, or '- %' as `NoPercentage`. */
  datatype PercentageText = Percent(value: real, tone: Tone) | Unbounded | NoPercentage

  /** A percentage only when the cost is positive; otherwise unbounded for a
      gain made at no cost, and none at all for anything else. */
  function ProfitPercentage(cost: real, profitMarket: real): (p: PercentageText)
    ensures p.Percent? <==> cost > 0.0
    ensures p.Unbounded? <==> cost <= 0.0 && profitMarket > 0.0
    ensures p.Percent? ==> && p.value * cost == profitMarket * 100.0
                           && (p.value >= 0.0 <==> profitMarket >= 0.0)
                           && (p.tone == SuccessColor <==> profitMarket >= 0.0)
                           && (p.tone == DangerColor <==> profitMarket < 0.0)
  {
    if cost > 0.0 then
      var percentage := (profitMarket / cost) * 100.0;
      assert percentage * cost == profitMarket * 100.0;
      assert percentage >= 0.0 <==> profitMarket >= 0.0 by {
        if profitMarket >= 0.0 { assert profitMarket / cost >= 0.0; }
        else { assert profitMarket / cost < 0.0; }
      }
      Percent(percentage, if profitMarket >= 0.0 then SuccessColor else DangerColor)
    else if profitMarket > 0.0 then Unbounded
    else NoPercentage
  }

  /** When the market revenue is not negative the market percentage cannot
      fall below -100%: at worst the whole cost is lost. */
  lemma PercentageAtLeastMinusHundred(cost: real, revenue: real)
    requires cost > 0.0 && revenue >= 0.0
    ensures ProfitPercentage(cost, revenue - cost).value >= -100.0
  {
    var p := ProfitPercentage(cost, revenue - cost).value;
    assert p * cost == (revenue - cost) * 100.0;
    assert (p + 100.0) * cost == revenue * 100.0;
    assert p + 100.0 >= 0.0;
  }

  /** The first 'profession' material of a list. */
  function FirstProfession(ms: seq<Material>): (r: Option<Material>)
    ensures r.None? <==> forall i :: 0 <= i < |ms| ==> ms[i].materialType != Profession
    ensures r.Some? ==> exists i :: 0 <= i < |ms| && ms[i] == r.value && r.value.materialType == Profession
                                    && forall j :: 0 <= j < i ==> ms[j].materialType != Profession
  {
    if |ms| == 0 then None
    else if ms[0].materialType == Profession then Some(ms[0])
    else
      var r := FirstProfession(ms[1..]);
      assert forall i :: 1 <= i < |ms| ==> ms[i] == ms[1..][i - 1];
      r
  }

  /** The line with the market profit per unit of the first profession
      material: `value` is None where 'N/A' is shown. */
  datatype ProfessionLine = LineHidden | PerMaterial(material: string, value: Option<real>, tone: Tone)

  /** Shown only when the recipe has a profession material and the packs are
      positive; the value is the market profit divided by the units of that
      material used, or 'N/A' when that count is not positive. */
  function ProfitPerProfessionMaterial(materials: Option<seq<Material>>, packs: int, profitMarket: real): (line: ProfessionLine)
    ensures line.LineHidden? <==> materials.None? || FirstProfession(materials.value).None? || packs <= 0
    ensures line.PerMaterial? ==>
              var m := FirstProfession(materials.value).value;
              && line.material == m.name
              && (line.value.Some? <==> m.quantity * packs > 0)
              && (line.value.Some? ==> line.value.value * (m.quantity * packs) as real == profitMarket
                                       && (line.tone == SuccessColor <==> profitMarket >= 0.0)
                                       && (line.tone == DangerColor <==> profitMarket < 0.0))
              && (line.value.None? ==> line.tone == InheritColor)
  {
    if materials.None? then LineHidden
    else
      var first := FirstProfession(materials.value);
      if first.None? || packs <= 0 then LineHidden
      else
        var totalProfessionMats := first.value.quantity * packs;
        if totalProfessionMats > 0 then
          var perMat := profitMarket / totalProfessionMats as real;
          PerMaterial(first.value.name, Some(perMat), if profitMarket >= 0.0 then SuccessColor else DangerColor)
        else PerMaterial(first.value.name, None, InheritColor)
  }

  // ---------------------------------------------------------------------
  // Worked scenarios
  // ---------------------------------------------------------------------

  /** The average of two qualifying lots. */
  lemma TwoLotAverage(p1: real, q1: int, p2: real, q2: int)
    requires p1 >= 0.0 && q1 > 0 && p2 >= 0.0 && q2 > 0
    ensures AveragePrice([LotInput(Some(p1), Some(q1), Some(LotValid)), LotInput(Some(p2), Some(q2), Some(LotValid))])
            == (p1 * q1 as real + p2 * q2 as real) / (q1 + q2) as real
  {
    var lots := [LotInput(Some(p1), Some(q1), Some(LotValid)), LotInput(Some(p2), Some(q2), Some(LotValid))];
    SumSnoc([lots[0]], lots[1], LotCost);
    SumSnoc([lots[0]], lots[1], LotWeight);
    assert [lots[0]] + [lots[1]] == lots;
  }

  /** One pack of "Espada" yields one item sold to the NPC for 100 and takes
      5 "Ferro" bought on the market; two lots of 6 at 3 and 4 at 5 fill the
      10 needed for 2 packs exactly. */
  lemma EndToEndScenario()
    ensures var ms := [Material("Ferro", 5, Buy, 0)];
            var recipe := Recipe("Espada", Some(1), Some(100.0), Some(ms));
            var lots := [LotInput(Some(3.0), Some(6), Some(LotValid)), LotInput(Some(5.0), Some(4), Some(LotValid))];
            var rows := [ModalRow("Ferro", Some(5), Some(10), lots, None)];
            var o := ModalConfirm(Some(recipe), Some(2), rows, Some(20.0));
            && o.Calculated?
            && o.report.averagePrices == map["Ferro" := 3.8]
            && o.report.totalCost == 38.0
            && o.report.profit.totalRevenueNPC == 200.0
            && o.report.profit.profitNPC == 162.0
            && o.report.profit.totalRevenueMarket == 40.0
            && o.report.profit.profitMarket == 2.0
  {
    var ms := [Material("Ferro", 5, Buy, 0)];
    var recipe := Recipe("Espada", Some(1), Some(100.0), Some(ms));
    var lots := [LotInput(Some(3.0), Some(6), Some(LotValid)), LotInput(Some(5.0), Some(4), Some(LotValid))];
    var rows := [ModalRow("Ferro", Some(5), Some(10), lots, None)];
    assert FindMaterial(ms, "Ferro") == Some(ms[0]);
    assert PurchasedRow(ms, rows[0]);
    assert !RowBlocks(ms, rows[0]);
    assert FirstBlocked(ms, rows, 0) == None;
    TwoLotAverage(3.0, 6, 5.0, 4);
    assert rows[..0] == [];
    assert MarketAverages(ms, rows) == map["Ferro" := 3.8];
    CostOfOneMoreMaterial([], ms[0], map["Ferro" := 3.8], 2);
    assert [] + [ms[0]] == ms;
    assert CraftingCost(Some(recipe), map["Ferro" := 3.8], 2) == 38.0;
  }

  /** The profession cost collected from a visible input of 7 for 2 "Erva"
      per pack is reported but does not reach the total: 3 packs cost 0 as
      written, 42 in the intended reading. */
  lemma ProfessionCostIgnoredScenario()
    ensures var ms := [Material("Erva", 2, Profession, 0)];
            var recipe := Recipe("Poção", Some(1), Some(0.0), Some(ms));
            var rows := [ModalRow("Erva", Some(2), None, [], Some(CostArea(true, Some(7.0))))];
            var o := ModalConfirm(Some(recipe), Some(3), rows, Some(0.0));
            && o.Calculated?
            && o.report.professionCosts == map["Erva" := 7.0]
            && o.report.totalCost == 0.0
            && IntendedCraftingCost(Some(recipe), o.report.averagePrices, 3, o.report.professionCosts) == 42.0
  {
    var ms := [Material("Erva", 2, Profession, 0)];
    var recipe := Recipe("Poção", Some(1), Some(0.0), Some(ms));
    var rows := [ModalRow("Erva", Some(2), None, [], Some(CostArea(true, Some(7.0))))];
    assert FindMaterial(ms, "Erva") == Some(ms[0]);
    assert !PurchasedRow(ms, rows[0]);
    assert FirstBlocked(ms, rows, 0) == None;
    assert rows[..0] == [];
    assert MarketAverages(ms, rows) == map[];
    assert ProfessionCosts(rows) == map["Erva" := 7.0];
    ProfessionOverrideScenario();
  }
}
