/** The lot reconciler of the calculation modal: a material bought on the
    market is priced by one or more lots (unit price, quantity). The lots'
    quantities are checked against the amount the packs need, and their
    prices are averaged, weighted by quantity. */
module LotReconciler {
  import opened Wrappers
  import opened Recipes
  import opened Sums

  /** The three validation states a lot quantity input can show
      ('input-valid', 'input-warning', 'input-invalid'). */
  datatype LotState = LotValid | LotWarning | LotInvalid

  /** One price/quantity pair of the modal: the parsed price and quantity
      (None where the text does not parse) and the state class it shows. */
  datatype LotInput = LotInput(price: Option<real>, qty: Option<int>, mark: Option<LotState>)

  /** `parseInt(qty) || 0`. */
  function LotQty(l: LotInput): int
  {
    OrZero(l.qty)
  }

  /** `parseFloat(price) || 0`. */
  function LotPrice(l: LotInput): real
  {
    OrZeroReal(l.price)
  }

  // ---------------------------------------------------------------------
  // Three-state classification
  // ---------------------------------------------------------------------

  /** The total of the lots' quantities, an unparsable quantity counting 0. */
  function LotSum(lots: seq<LotInput>): int
  {
    if |lots| == 0 then 0 else LotSum(lots[..|lots| - 1]) + LotQty(lots[|lots| - 1])
  }

  /** The state of a material whose lots add up to `sum` when `needed` is
      required: exact is valid, a shortfall (never negative) is a warning, and
      anything else (an excess or a negative total) is invalid. */
  function Classify(needed: int, sum: int): (s: LotState)
    ensures s == LotValid <==> sum == needed
    ensures s == LotWarning <==> 0 <= sum < needed
    ensures s == LotInvalid <==> sum > needed || (sum < 0 && sum != needed)
  {
    if sum == needed then LotValid
    else if sum < needed && sum >= 0 then LotWarning
    else LotInvalid
  }

  /** The lots after validation against `totalNeeded` (None when the stored
      total does not parse): every lot keeps its price and quantity and shows
      the one state of the whole material, or no state when the total is
      unknown. */
  function MarkedLots(totalNeeded: Option<int>, lots: seq<LotInput>): (r: seq<LotInput>)
    ensures |r| == |lots|
  {
    var mark := if totalNeeded.None? then None else Some(Classify(totalNeeded.value, LotSum(lots)));
    seq(|lots|, i requires 0 <= i < |lots| => lots[i].(mark := mark))
  }

  /** `validateAndUpdateLotInputs`: sums the lot quantities, classifies the
      sum and sets that state on every quantity input of the material, after
      clearing the previous state. */
  method ValidateAndUpdateLotInputs(totalNeeded: Option<int>, lots: seq<LotInput>) returns (updated: seq<LotInput>)
    ensures updated == MarkedLots(totalNeeded, lots)
  {
    if |lots| == 0 || totalNeeded.None? {
      updated := [];
      for i := 0 to |lots|
        invariant updated == seq(i, j requires 0 <= j < i => lots[j].(mark := None))
      {
        updated := updated + [lots[i].(mark := None)];
      }
      return;
    }
    var sumOfLotQuantities := 0;
    for i := 0 to |lots|
      invariant sumOfLotQuantities == LotSum(lots[..i])
    {
      assert lots[..i + 1][..i] == lots[..i];
      sumOfLotQuantities := sumOfLotQuantities + OrZero(lots[i].qty);
    }
    assert lots[..|lots|] == lots;
    var needed := totalNeeded.value;
    var stateClass;
    if sumOfLotQuantities == needed {
      stateClass := LotValid;
    } else if sumOfLotQuantities < needed && sumOfLotQuantities >= 0 {
      stateClass := LotWarning;
    } else {
      stateClass := LotInvalid;
    }
    updated := [];
    for i := 0 to |lots|
      invariant updated == seq(i, j requires 0 <= j < i => lots[j].(mark := Some(stateClass)))
    {
      updated := updated + [lots[i].(mark := Some(stateClass))];
    }
  }

  /** After validation every lot of the material shows the same single state,
      the one its total earns, and keeps its price and quantity. */
  lemma MarkedLotsUniform(totalNeeded: Option<int>, lots: seq<LotInput>, i: nat, j: nat)
    requires i < |lots| && j < |lots|
    ensures var r := MarkedLots(totalNeeded, lots);
            && r[i].mark == r[j].mark
            && r[i].price == lots[i].price && r[i].qty == lots[i].qty
            && (totalNeeded.None? <==> r[i].mark.None?)
            && (totalNeeded.Some? ==> r[i].mark == Some(Classify(totalNeeded.value, LotSum(lots))))
  {
  }

  /** Some lot of a validated material shows the invalid state exactly when
      the material has lots, its total is known and the lots' sum exceeds it
      or is negative. */
  lemma MarkedLotsInvalid(totalNeeded: Option<int>, lots: seq<LotInput>)
    ensures (exists j :: 0 <= j < |lots| && MarkedLots(totalNeeded, lots)[j].mark == Some(LotInvalid))
            <==> |lots| > 0 && totalNeeded.Some? && Classify(totalNeeded.value, LotSum(lots)) == LotInvalid
  {
    if |lots| > 0 && totalNeeded.Some? && Classify(totalNeeded.value, LotSum(lots)) == LotInvalid {
      assert MarkedLots(totalNeeded, lots)[0].mark == Some(LotInvalid);
    }
  }

  /** A lot whose quantity does not parse adds nothing to the sum. */
  lemma UnparsableLotCountsZero(lots: seq<LotInput>, l: LotInput)
    requires l.qty.None?
    ensures LotSum(lots + [l]) == LotSum(lots)
  {
    assert (lots + [l])[..|lots|] == lots;
  }

  // ---------------------------------------------------------------------
  // Weighted average price
  // ---------------------------------------------------------------------

  /** A lot enters the average only with a positive quantity and a
      non-negative price. */
  predicate Qualifies(l: LotInput)
  {
    LotQty(l) > 0 && LotPrice(l) >= 0.0
  }

  /** What a lot adds to the numerator `Σ price * qty`. */
  function LotCost(l: LotInput): real
  {
    if Qualifies(l) then LotPrice(l) * LotQty(l) as real else 0.0
  }

  /** What a lot adds to the denominator `Σ qty`. */
  function LotWeight(l: LotInput): real
  {
    if Qualifies(l) then LotQty(l) as real else 0.0
  }

  /** The weighted average unit price of the qualifying lots; 0 when no lot
      qualifies. */
  function AveragePrice(lots: seq<LotInput>): real
  {
    var weight := Sum(lots, LotWeight);
    if weight > 0.0 then Sum(lots, LotCost) / weight else 0.0
  }

  /** The averaging loop of `handleModalConfirm` for one material. */
  method WeightedAverage(lots: seq<LotInput>) returns (avgPrice: real)
    ensures avgPrice == AveragePrice(lots)
  {
    var totalCostForMaterial := 0.0;
    var totalQtyForMaterial := 0;
    for i := 0 to |lots|
      invariant totalCostForMaterial == Sum(lots[..i], LotCost)
      invariant totalQtyForMaterial as real == Sum(lots[..i], LotWeight)
    {
      var price := OrZeroReal(lots[i].price);
      var qty := OrZero(lots[i].qty);
      if qty > 0 && price >= 0.0 {
        totalCostForMaterial := totalCostForMaterial + price * qty as real;
        totalQtyForMaterial := totalQtyForMaterial + qty;
      }
      SumPrefix(lots, i, LotCost);
      SumPrefix(lots, i, LotWeight);
    }
    assert lots[..|lots|] == lots;
    avgPrice := if totalQtyForMaterial > 0 then totalCostForMaterial / totalQtyForMaterial as real else 0.0;
  }

  lemma DivideBounded(c: real, w: real, lo: real, hi: real)
    requires w > 0.0 && lo * w <= c <= hi * w
    ensures lo <= c / w <= hi
  {
  }

  lemma LotCostWithin(l: LotInput, lo: real, hi: real)
    requires 0.0 <= lo
    requires Qualifies(l) ==> lo <= LotPrice(l) <= hi
    ensures lo * LotWeight(l) <= LotCost(l) <= hi * LotWeight(l)
    ensures LotWeight(l) >= 0.0 && LotCost(l) >= 0.0
  {
    if Qualifies(l) {
      var q, p := LotQty(l) as real, LotPrice(l);
      assert lo * q <= p * q by {
        assert (p - lo) * q >= 0.0;
      }
      assert p * q <= hi * q by {
        assert (hi - p) * q >= 0.0;
      }
      assert p * q >= 0.0;
    }
  }

  /** A lot's weight scaled by `c`, as a measure to sum. */
  function ScaledWeight(c: real): LotInput -> real
  {
    l => c * LotWeight(l)
  }

  /** Summing the scaled weights scales the sum of the weights. */
  lemma SumScaledWeight(lots: seq<LotInput>, c: real)
    ensures Sum(lots, ScaledWeight(c)) == c * Sum(lots, LotWeight)
  {
    forall i | 0 <= i < |lots|
      ensures ScaledWeight(c)(lots[i]) == c * LotWeight(lots[i])
    {
    }
    SumScale(lots, ScaledWeight(c), LotWeight, c);
  }

  /** The numerator is at least `lo` times the denominator. */
  lemma CostAboveWeight(lots: seq<LotInput>, lo: real)
    requires 0.0 <= lo
    requires forall i :: 0 <= i < |lots| && Qualifies(lots[i]) ==> lo <= LotPrice(lots[i])
    ensures lo * Sum(lots, LotWeight) <= Sum(lots, LotCost)
  {
    forall i | 0 <= i < |lots|
      ensures ScaledWeight(lo)(lots[i]) <= LotCost(lots[i])
    {
      var l := lots[i];
      LotCostWithin(l, lo, LotPrice(l));
      assert ScaledWeight(lo)(l) == lo * LotWeight(l);
    }
    SumMonotone(lots, ScaledWeight(lo), LotCost);
    SumScaledWeight(lots, lo);
  }

  /** The numerator is at most `hi` times the denominator. */
  lemma CostBelowWeight(lots: seq<LotInput>, hi: real)
    requires forall i :: 0 <= i < |lots| && Qualifies(lots[i]) ==> LotPrice(lots[i]) <= hi
    ensures Sum(lots, LotCost) <= hi * Sum(lots, LotWeight)
  {
    forall i | 0 <= i < |lots|
      ensures LotCost(lots[i]) <= ScaledWeight(hi)(lots[i])
    {
      var l := lots[i];
      LotCostWithin(l, 0.0, hi);
      assert ScaledWeight(hi)(l) == hi * LotWeight(l);
    }
    SumMonotone(lots, LotCost, ScaledWeight(hi));
    SumScaledWeight(lots, hi);
  }

  /** Both sums are non-negative. */
  lemma SumsNonnegative(lots: seq<LotInput>)
    ensures Sum(lots, LotWeight) >= 0.0 && Sum(lots, LotCost) >= 0.0
  {
    forall i | 0 <= i < |lots|
      ensures LotWeight(lots[i]) >= 0.0 && LotCost(lots[i]) >= 0.0
    {
      LotCostWithin(lots[i], 0.0, LotPrice(lots[i]));
    }
    SumNonnegative(lots, LotWeight);
    SumNonnegative(lots, LotCost);
  }

  /** The denominator is positive exactly when some lot qualifies. */
  lemma WeightPositive(lots: seq<LotInput>)
    ensures Sum(lots, LotWeight) > 0.0 <==> exists i :: 0 <= i < |lots| && Qualifies(lots[i])
  {
    forall i | 0 <= i < |lots|
      ensures LotWeight(lots[i]) >= 0.0
    {
    }
    if exists i :: 0 <= i < |lots| && Qualifies(lots[i]) {
      var i :| 0 <= i < |lots| && Qualifies(lots[i]);
      SumRemove(lots, i, LotWeight);
      var rest := lots[..i] + lots[i + 1..];
      forall j | 0 <= j < |rest|
        ensures LotWeight(rest[j]) >= 0.0
      {
        assert rest[j] == if j < i then lots[j] else lots[j + 1];
      }
      SumNonnegative(rest, LotWeight);
    } else {
      forall i | 0 <= i < |lots|
        ensures LotWeight(lots[i]) == 0.0 * LotWeight(lots[i])
      {
      }
      SumScale(lots, LotWeight, LotWeight, 0.0);
    }
  }

  /** The average lies between the lowest and the highest price of the
      qualifying lots (so it is never negative), and is 0 when none qualifies. */
  lemma AveragePriceBounds(lots: seq<LotInput>, lo: real, hi: real)
    requires 0.0 <= lo
    requires forall i :: 0 <= i < |lots| && Qualifies(lots[i]) ==> lo <= LotPrice(lots[i]) <= hi
    ensures AveragePrice(lots) >= 0.0
    ensures (exists i :: 0 <= i < |lots| && Qualifies(lots[i])) ==> lo <= AveragePrice(lots) <= hi
    ensures (forall i :: 0 <= i < |lots| ==> !Qualifies(lots[i])) ==> AveragePrice(lots) == 0.0
  {
    CostAboveWeight(lots, lo);
    CostBelowWeight(lots, hi);
    SumsNonnegative(lots);
    WeightPositive(lots);
    var w := Sum(lots, LotWeight);
    if w > 0.0 {
      DivideBounded(Sum(lots, LotCost), w, lo, hi);
    }
  }

  /** The average is never negative: lots with a negative price are left out. */
  lemma AveragePriceNonnegative(lots: seq<LotInput>)
    ensures AveragePrice(lots) >= 0.0
  {
    SumsNonnegative(lots);
  }

  /** The average does not depend on the order of the lots. */
  lemma AveragePriceIndependentOfOrder(lots: seq<LotInput>, lots': seq<LotInput>)
    requires multiset(lots) == multiset(lots')
    ensures AveragePrice(lots) == AveragePrice(lots')
  {
    SumPermutation(lots, lots', LotCost);
    SumPermutation(lots, lots', LotWeight);
  }

  /** Splitting a lot into two lots at the same price whose quantities add up
      to the original leaves the average unchanged. */
  lemma AveragePriceSplitLot(before: seq<LotInput>, after: seq<LotInput>, p: real, q1: int, q2: int, mark: Option<LotState>)
    requires q1 > 0 && q2 > 0
    ensures AveragePrice(before + [LotInput(Some(p), Some(q1 + q2), mark)] + after)
         == AveragePrice(before + [LotInput(Some(p), Some(q1), mark), LotInput(Some(p), Some(q2), mark)] + after)
  {
    var whole := LotInput(Some(p), Some(q1 + q2), mark);
    var a, b := LotInput(Some(p), Some(q1), mark), LotInput(Some(p), Some(q2), mark);
    SplitMeasures(whole, a, b, p, q1, q2);
    SumAppend3(before, [whole], after, LotCost);
    SumAppend3(before, [whole], after, LotWeight);
    SumAppend3(before, [a, b], after, LotCost);
    SumAppend3(before, [a, b], after, LotWeight);
    SumSnoc([a], b, LotCost);
    SumSnoc([a], b, LotWeight);
    SumSnoc([], a, LotCost);
    SumSnoc([], a, LotWeight);
    SumSnoc([], whole, LotCost);
    SumSnoc([], whole, LotWeight);
    assert [a] + [b] == [a, b];
    assert [] + [a] == [a];
    assert [] + [whole] == [whole];
  }

  lemma SplitMeasures(whole: LotInput, a: LotInput, b: LotInput, p: real, q1: int, q2: int)
    requires q1 > 0 && q2 > 0
    requires whole == LotInput(Some(p), Some(q1 + q2), whole.mark)
    requires a == LotInput(Some(p), Some(q1), a.mark) && b == LotInput(Some(p), Some(q2), b.mark)
    ensures LotCost(whole) == LotCost(a) + LotCost(b)
    ensures LotWeight(whole) == LotWeight(a) + LotWeight(b)
  {
    if p >= 0.0 {
      assert p * (q1 + q2) as real == p * q1 as real + p * q2 as real;
    }
  }

  /** A lot with a negative price is left out of both sums: adding it does
      not change the average. */
  lemma NegativePriceLotIgnored(lots: seq<LotInput>, l: LotInput)
    requires l.price.Some? && l.price.value < 0.0
    ensures AveragePrice(lots + [l]) == AveragePrice(lots)
  {
    SumSnoc(lots, l, LotCost);
    SumSnoc(lots, l, LotWeight);
  }

  /** A lot whose price field does not parse is priced 0 and still counts,
      pulling the average down. */
  lemma UnparsablePriceLotIsFree(lots: seq<LotInput>, l: LotInput)
    requires l.price.None? && LotQty(l) > 0
    ensures Sum(lots + [l], LotCost) == Sum(lots, LotCost)
    ensures Sum(lots + [l], LotWeight) == Sum(lots, LotWeight) + LotQty(l) as real
  {
    SumSnoc(lots, l, LotCost);
    SumSnoc(lots, l, LotWeight);
  }
}
