/** The pricing engine: the crafting cost of a number of packs, the revenue
    and profit on the market and NPC channels, and the display of an amount. */
module Calculator {
  import opened Wrappers
  import opened Recipes
  import opened Sums

  // ---------------------------------------------------------------------
  // Crafting cost
  // ---------------------------------------------------------------------

  /** `marketPricesUnit[name] || 0`: the unit price supplied for a material,
      0 when none was supplied. A negative price is returned as it is. */
  function UnitPrice(prices: map<string, real>, name: string): real
  {
    if name in prices then prices[name] else 0.0
  }

  /** What one material adds to the cost of `packs` packs: its quantity per
      pack times the packs times its unit price for a 'drop' or 'buy'
      material, nothing for any other type. */
  function MaterialCost(m: Material, prices: map<string, real>, packs: int): real
  {
    if IsPurchased(m.materialType) then (m.quantity as real * packs as real) * UnitPrice(prices, m.name) else 0.0
  }

  /** `MaterialCost` with the prices and packs fixed, as a measure to sum. */
  function MaterialCostOf(prices: map<string, real>, packs: int): Material -> real
  {
    m => MaterialCost(m, prices, packs)
  }

  /** The cost of a list of materials for `packs` packs. */
  function MaterialsCost(ms: seq<Material>, prices: map<string, real>, packs: int): real
  {
    Sum(ms, MaterialCostOf(prices, packs))
  }

  /** What `calculateCraftingCost` returns: 0 for a missing recipe, missing
      materials or a pack count that is not positive, else the materials' cost. */
  function CraftingCost(recipe: Option<Recipe>, prices: map<string, real>, packs: int): real
  {
    if recipe.None? || recipe.value.materials.None? || packs <= 0 then 0.0
    else MaterialsCost(recipe.value.materials.value, prices, packs)
  }

  /** `calculateCraftingCost`: accumulates the cost material by material.
      It takes no profession-cost argument, so 'profession' materials always
      cost nothing. */
  method CalculateCraftingCost(recipe: Option<Recipe>, prices: map<string, real>, packs: int)
    returns (totalCost: real)
    ensures recipe.None? || recipe.value.materials.None? || packs <= 0 ==> totalCost == 0.0
    ensures totalCost == CraftingCost(recipe, prices, packs)
  {
    totalCost := 0.0;
    if recipe.None? || recipe.value.materials.None? || packs <= 0 {
      return 0.0;
    }
    var ms := recipe.value.materials.value;
    for i := 0 to |ms|
      invariant totalCost == MaterialsCost(ms[..i], prices, packs)
    {
      var m := ms[i];
      if m.materialType == Drop || m.materialType == Buy {
        var unitPrice := UnitPrice(prices, m.name);
        var totalQuantityNeeded := m.quantity as real * packs as real;
        totalCost := totalCost + totalQuantityNeeded * unitPrice;
      }
      SumPrefix(ms, i, MaterialCostOf(prices, packs));
    }
    assert ms[..|ms|] == ms;
  }

  /** The materials of a list that are bought on the market, in order. */
  function Purchased(ms: seq<Material>): (r: seq<Material>)
    ensures forall i :: 0 <= i < |r| ==> IsPurchased(r[i].materialType)
    ensures |r| <= |ms|
  {
    if |ms| == 0 then []
    else if IsPurchased(ms[0].materialType) then [ms[0]] + Purchased(ms[1..])
    else Purchased(ms[1..])
  }

  /** Only 'drop' and 'buy' materials contribute: dropping every other
      material (profession or unknown type) leaves the cost unchanged. */
  lemma {:induction false} CostOnlyFromPurchased(ms: seq<Material>, prices: map<string, real>, packs: int)
    ensures MaterialsCost(ms, prices, packs) == MaterialsCost(Purchased(ms), prices, packs)
  {
    var f := MaterialCostOf(prices, packs);
    if |ms| > 0 {
      CostOnlyFromPurchased(ms[1..], prices, packs);
      if IsPurchased(ms[0].materialType) {
        SumAppend([ms[0]], Purchased(ms[1..]), f);
        assert Sum([ms[0]], f) == f(ms[0]) + Sum([ms[0]][1..], f);
      }
    }
  }

  /** Each further material adds exactly its own contribution: quantity per
      pack times packs times its unit price (0 when no price was supplied) for
      'drop'/'buy', nothing otherwise. */
  lemma CostOfOneMoreMaterial(ms: seq<Material>, m: Material, prices: map<string, real>, packs: int)
    ensures MaterialsCost(ms + [m], prices, packs) == MaterialsCost(ms, prices, packs)
      + (if IsPurchased(m.materialType)
         then (m.quantity as real * packs as real) * (if m.name in prices then prices[m.name] else 0.0)
         else 0.0)
  {
    SumSnoc(ms, m, MaterialCostOf(prices, packs));
  }

  /** A supplied negative unit price is used as it is, so a purchased material
      with such a price lowers the total instead of adding 0. */
  lemma NegativePriceLowersCost(ms: seq<Material>, m: Material, prices: map<string, real>, packs: int)
    requires IsPurchased(m.materialType) && m.quantity > 0 && packs > 0
    requires m.name in prices && prices[m.name] < 0.0
    ensures MaterialsCost(ms + [m], prices, packs) < MaterialsCost(ms, prices, packs)
  {
    CostOfOneMoreMaterial(ms, m, prices, packs);
    var needed := m.quantity as real * packs as real;
    assert needed > 0.0 by {
      assert m.quantity as real * packs as real >= 1.0 * packs as real;
    }
    assert needed * prices[m.name] < 0.0;
  }

  /** With every supplied price and every quantity non-negative, the cost is
      non-negative. */
  lemma CostNonnegative(recipe: Option<Recipe>, prices: map<string, real>, packs: int)
    requires forall k :: k in prices ==> prices[k] >= 0.0
    requires recipe.Some? && recipe.value.materials.Some? ==>
               forall i :: 0 <= i < |recipe.value.materials.value| ==> recipe.value.materials.value[i].quantity >= 0
    ensures CraftingCost(recipe, prices, packs) >= 0.0
  {
    if recipe.Some? && recipe.value.materials.Some? && packs > 0 {
      var ms := recipe.value.materials.value;
      forall i | 0 <= i < |ms|
        ensures MaterialCostOf(prices, packs)(ms[i]) >= 0.0
      {
        assert ms[i].quantity as real * packs as real >= 0.0;
      }
      SumNonnegative(ms, MaterialCostOf(prices, packs));
    }
  }

  /** The cost does not depend on the order of the materials. */
  lemma CostIndependentOfOrder(ms: seq<Material>, ms': seq<Material>, prices: map<string, real>, packs: int)
    requires multiset(ms) == multiset(ms')
    ensures MaterialsCost(ms, prices, packs) == MaterialsCost(ms', prices, packs)
  {
    SumPermutation(ms, ms', MaterialCostOf(prices, packs));
  }

  /** One material's contribution to `packs` packs is `packs` times its
      contribution to one pack. */
  lemma MaterialCostScales(m: Material, prices: map<string, real>, packs: int)
    ensures MaterialCostOf(prices, packs)(m) == packs as real * MaterialCostOf(prices, 1)(m)
  {
    if IsPurchased(m.materialType) {
      var q, n, p := m.quantity as real, packs as real, UnitPrice(prices, m.name);
      assert MaterialCostOf(prices, packs)(m) == (q * n) * p;
      assert MaterialCostOf(prices, 1)(m) == (q * 1.0) * p;
      assert (q * n) * p == n * (q * p);
    }
  }

  /** The cost of `packs` packs is `packs` times the cost of one pack. */
  lemma CostScalesWithPacks(ms: seq<Material>, prices: map<string, real>, packs: int)
    ensures MaterialsCost(ms, prices, packs) == packs as real * MaterialsCost(ms, prices, 1)
  {
    EveryMaterialCostScales(ms, prices, packs);
    SumScale(ms, MaterialCostOf(prices, packs), MaterialCostOf(prices, 1), packs as real);
  }

  /** `MaterialCostScales` for every material of a list. */
  lemma EveryMaterialCostScales(ms: seq<Material>, prices: map<string, real>, packs: int)
    ensures forall i :: 0 <= i < |ms| ==>
              MaterialCostOf(prices, packs)(ms[i]) == packs as real * MaterialCostOf(prices, 1)(ms[i])
  {
    forall i | 0 <= i < |ms|
      ensures MaterialCostOf(prices, packs)(ms[i]) == packs as real * MaterialCostOf(prices, 1)(ms[i])
    {
      MaterialCostScales(ms[i], prices, packs);
    }
  }

  // ---------------------------------------------------------------------
  // Crafting cost as the calculation modal means it
  // ---------------------------------------------------------------------

  /** A unit price or cost as the warnings of the pricing engine describe
      it: a missing or negative figure counts as 0. */
  function ClampedPrice(prices: map<string, real>, name: string): (p: real)
    ensures p >= 0.0
    ensures name in prices && prices[name] >= 0.0 ==> p == prices[name]
    ensures name !in prices || prices[name] < 0.0 ==> p == 0.0
  {
    if name in prices && prices[name] >= 0.0 then prices[name] else 0.0
  }

  /** What one material adds when the profession costs collected by the modal
      are honoured: 'drop'/'buy' at the clamped market price, 'profession' at
      its collected unit cost (0 when none), anything else nothing. */
  function IntendedMaterialCost(m: Material, prices: map<string, real>, packs: int, professionCosts: map<string, real>): real
  {
    if IsPurchased(m.materialType) then (m.quantity as real * packs as real) * ClampedPrice(prices, m.name)
    else if m.materialType == Profession then (m.quantity as real * packs as real) * ClampedPrice(professionCosts, m.name)
    else 0.0
  }

  function IntendedMaterialCostOf(prices: map<string, real>, packs: int, professionCosts: map<string, real>): Material -> real
  {
    m => IntendedMaterialCost(m, prices, packs, professionCosts)
  }

  /** The crafting cost the modal evidently intends when it passes the
      collected profession costs along: same guard as `CraftingCost`. */
  function IntendedCraftingCost(recipe: Option<Recipe>, prices: map<string, real>, packs: int, professionCosts: map<string, real>): real
  {
    if recipe.None? || recipe.value.materials.None? || packs <= 0 then 0.0
    else Sum(recipe.value.materials.value, IntendedMaterialCostOf(prices, packs, professionCosts))
  }

  /** The intended cost never goes below 0, whatever prices and costs are
      supplied, as long as the quantities are not negative. */
  lemma IntendedCostNonnegative(recipe: Option<Recipe>, prices: map<string, real>, packs: int, professionCosts: map<string, real>)
    requires recipe.Some? && recipe.value.materials.Some? ==>
               forall i :: 0 <= i < |recipe.value.materials.value| ==> recipe.value.materials.value[i].quantity >= 0
    ensures IntendedCraftingCost(recipe, prices, packs, professionCosts) >= 0.0
  {
    if recipe.Some? && recipe.value.materials.Some? && packs > 0 {
      var ms := recipe.value.materials.value;
      var f := IntendedMaterialCostOf(prices, packs, professionCosts);
      forall i | 0 <= i < |ms|
        ensures f(ms[i]) >= 0.0
      {
        var needed := ms[i].quantity as real * packs as real;
        assert needed >= 0.0;
        assert f(ms[i]) == IntendedMaterialCost(ms[i], prices, packs, professionCosts);
      }
      SumNonnegative(ms, f);
    }
  }

  /** Each further material adds its own intended contribution; in
      particular a 'profession' material with a collected cost adds quantity
      per pack times packs times that cost, and one without adds nothing. */
  lemma IntendedCostOfOneMoreMaterial(ms: seq<Material>, m: Material, prices: map<string, real>, packs: int, professionCosts: map<string, real>)
    requires m.materialType == Profession
    ensures Sum(ms + [m], IntendedMaterialCostOf(prices, packs, professionCosts))
            == Sum(ms, IntendedMaterialCostOf(prices, packs, professionCosts))
               + (if m.name in professionCosts && professionCosts[m.name] >= 0.0
                  then (m.quantity as real * packs as real) * professionCosts[m.name]
                  else 0.0)
  {
    SumSnoc(ms, m, IntendedMaterialCostOf(prices, packs, professionCosts));
  }

  /** A purchased material whose supplied price is negative adds nothing to
      the intended cost (it lowers the as-written cost, see
      `NegativePriceLowersCost`). */
  lemma IntendedCostIgnoresNegativePrice(ms: seq<Material>, m: Material, prices: map<string, real>, packs: int, professionCosts: map<string, real>)
    requires IsPurchased(m.materialType)
    requires m.name in prices && prices[m.name] < 0.0
    ensures Sum(ms + [m], IntendedMaterialCostOf(prices, packs, professionCosts))
            == Sum(ms, IntendedMaterialCostOf(prices, packs, professionCosts))
  {
    SumSnoc(ms, m, IntendedMaterialCostOf(prices, packs, professionCosts));
  }

  /** Where the two readings meet: with no negative price and no collected
      cost for any 'profession' material of the recipe, the intended cost is
      the as-written one. */
  lemma {:induction false} IntendedCostAgreesWithoutOverrides(recipe: Option<Recipe>, prices: map<string, real>, packs: int, professionCosts: map<string, real>)
    requires forall k :: k in prices ==> prices[k] >= 0.0
    requires recipe.Some? && recipe.value.materials.Some? ==>
               forall i :: 0 <= i < |recipe.value.materials.value| ==>
                 recipe.value.materials.value[i].materialType == Profession ==> recipe.value.materials.value[i].name !in professionCosts
    ensures IntendedCraftingCost(recipe, prices, packs, professionCosts) == CraftingCost(recipe, prices, packs)
  {
    if recipe.Some? && recipe.value.materials.Some? && packs > 0 {
      var ms := recipe.value.materials.value;
      var f, g := IntendedMaterialCostOf(prices, packs, professionCosts), MaterialCostOf(prices, packs);
      forall i | 0 <= i < |ms|
        ensures f(ms[i]) == g(ms[i])
      {
        var m := ms[i];
        assert f(m) == IntendedMaterialCost(m, prices, packs, professionCosts);
        assert g(m) == MaterialCost(m, prices, packs);
        if IsPurchased(m.materialType) {
          assert ClampedPrice(prices, m.name) == UnitPrice(prices, m.name);
        } else if m.materialType == Profession {
          assert m.name !in professionCosts;
          assert ClampedPrice(professionCosts, m.name) == 0.0;
        }
      }
      SumMonotone(ms, f, g);
      SumMonotone(ms, g, f);
    }
  }

  /** The profession-override scenario: 2 of a 'profession' material per
      pack, a collected cost of 7 and 3 packs cost 42 in the intended reading
      and 0 as written. */
  lemma ProfessionOverrideScenario()
    ensures var r := Some(Recipe("Poção", Some(1), Some(0.0), Some([Material("Erva", 2, Profession, 0)])));
            && IntendedCraftingCost(r, map[], 3, map["Erva" := 7.0]) == 42.0
            && CraftingCost(r, map[], 3) == 0.0
  {
    var ms := [Material("Erva", 2, Profession, 0)];
    IntendedCostOfOneMoreMaterial([], ms[0], map[], 3, map["Erva" := 7.0]);
    assert [] + [ms[0]] == ms;
    CostOfOneMoreMaterial([], ms[0], map[], 3);
  }

  // ---------------------------------------------------------------------
  // Profit
  // ---------------------------------------------------------------------

  /** The four figures `calculateProfit` returns. */
  datatype ProfitResult = ProfitResult(
    profitMarket: real,
    profitNPC: real,
    totalRevenueMarket: real,
    totalRevenueNPC: real)

  /** `calculateProfit`: `market` is the total market revenue for all packs
      (absent counts as 0), the NPC revenue is the per-pack NPC price times the
      packs, and each profit is its revenue minus `cost`. A missing recipe or a
      pack count that is not positive gives all zeros. */
  function CalculateProfit(cost: real, recipe: Option<Recipe>, market: Option<real>, packs: int): (r: ProfitResult)
    ensures recipe.None? || packs <= 0 ==> r == ProfitResult(0.0, 0.0, 0.0, 0.0)
    ensures recipe.Some? && packs > 0 ==>
              && r.totalRevenueMarket == OrZeroReal(market)
              && r.totalRevenueNPC == OrZeroReal(recipe.value.npcSellPrice) * packs as real
              && r.profitMarket + cost == r.totalRevenueMarket
              && r.profitNPC + cost == r.totalRevenueNPC
  {
    if recipe.None? || packs <= 0 then ProfitResult(0.0, 0.0, 0.0, 0.0)
    else
      var totalRevenueMarket := OrZeroReal(market);
      var totalRevenueNPC := OrZeroReal(recipe.value.npcSellPrice) * packs as real;
      ProfitResult(totalRevenueMarket - cost, totalRevenueNPC - cost, totalRevenueMarket, totalRevenueNPC)
  }

  /** A loss is a valid result: a profit is negative exactly when the cost
      exceeds that channel's revenue, and a higher cost lowers both profits by
      the same amount. */
  lemma ProfitSignAndCost(cost: real, cost': real, recipe: Recipe, market: Option<real>, packs: int)
    requires packs > 0
    ensures var r := CalculateProfit(cost, Some(recipe), market, packs);
            (r.profitMarket < 0.0 <==> cost > r.totalRevenueMarket) && (r.profitNPC < 0.0 <==> cost > r.totalRevenueNPC)
    ensures var r, r' := CalculateProfit(cost, Some(recipe), market, packs), CalculateProfit(cost', Some(recipe), market, packs);
            r.profitMarket - r'.profitMarket == cost' - cost && r.profitNPC - r'.profitNPC == cost' - cost
  {
  }

  // ---------------------------------------------------------------------
  // Currency display
  // ---------------------------------------------------------------------

  /** The argument of `formatCurrency`: a JavaScript number or anything else. */
  datatype JsValue = Number(x: real) | NotNumber

  function DigitChar(d: int): char
    requires 0 <= d < 10
  {
    ('0' as int + d) as char
  }

  predicate IsDigit(c: char)
  {
    '0' <= c <= '9'
  }

  predicate AllDigits(s: string)
  {
    forall i :: 0 <= i < |s| ==> IsDigit(s[i])
  }

  /** The decimal digits of a natural number, without leading zeros. */
  function NatDigits(n: nat): (s: string)
    ensures |s| > 0 && AllDigits(s)
    decreases n
  {
    if n < 10 then [DigitChar(n)] else NatDigits(n / 10) + [DigitChar(n % 10)]
  }

  /** The value of a non-empty string of decimal digits. */
  function DigitsValue(s: string): nat
    requires |s| > 0 && AllDigits(s)
  {
    var d := s[|s| - 1] as int - '0' as int;
    if |s| == 1 then d else 10 * DigitsValue(s[..|s| - 1]) + d
  }

  lemma {:induction false} DigitsRoundTrip(n: nat)
    ensures DigitsValue(NatDigits(n)) == n
    decreases n
  {
    if n >= 10 {
      DigitsRoundTrip(n / 10);
      var s := NatDigits(n);
      assert s[..|s| - 1] == NatDigits(n / 10);
    }
  }

  /** An integer written in decimal, with a leading '-' when negative. */
  function Render(k: int): string
  {
    if k < 0 then "-" + NatDigits(-k) else NatDigits(k)
  }

  /** The strings `Render` produces. */
  predicate IsRendering(s: string)
  {
    (|s| > 0 && AllDigits(s)) || (|s| > 1 && s[0] == '-' && AllDigits(s[1..]))
  }

  /** Reads an integer back from its rendering. */
  function ParseRendering(s: string): int
    requires IsRendering(s)
  {
    if s[0] == '-' then -(DigitsValue(s[1..]) as int) else DigitsValue(s)
  }

  /** Rendering an integer and reading it back gives the integer. */
  lemma RenderRoundTrip(k: int)
    ensures IsRendering(Render(k)) && ParseRendering(Render(k)) == k
  {
    if k < 0 {
      DigitsRoundTrip(-k);
      assert Render(k)[1..] == NatDigits(-k);
    } else {
      DigitsRoundTrip(k);
    }
  }

  /** Different integers are rendered differently. */
  lemma RenderInjective(a: int, b: int)
    ensures Render(a) == Render(b) ==> a == b
  {
    RenderRoundTrip(a);
    RenderRoundTrip(b);
  }

  /** `formatCurrency`: "0" for a value that is not a number; otherwise the
      number rounded down to an integer and written out, so the amount shown
      is never above the value and less than one unit below it. */
  function FormatCurrency(v: JsValue): (s: string)
    ensures v.NotNumber? ==> s == "0"
    ensures v.Number? ==> IsRendering(s) && ParseRendering(s) as real <= v.x < ParseRendering(s) as real + 1.0
  {
    match v
    case NotNumber => "0"
    case Number(x) => RenderRoundTrip(x.Floor); Render(x.Floor)
  }

  /** Formatting an amount that is already whole shows the same text as
      formatting the amount it was rounded down from. */
  lemma FormatCurrencyOfFloor(x: real)
    ensures FormatCurrency(Number(x.Floor as real)) == FormatCurrency(Number(x))
  {
  }

  /** Two amounts show the same text exactly when they round down to the same
      integer. */
  lemma FormatCurrencyDistinguishes(x: real, y: real)
    ensures FormatCurrency(Number(x)) == FormatCurrency(Number(y)) <==> x.Floor == y.Floor
  {
    RenderInjective(x.Floor, y.Floor);
  }
}
