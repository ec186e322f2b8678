/** The two figures the result display derives from a run
    (ui/result_frame.py): a model's average per-material satisfaction and
    the stock that remains of each material. */
module ResultMetrics {
  import opened Common
  import opened Domain
  import opened Allocation

  // ---------------------------------------------------------------------
  // Average per-material satisfaction
  // ---------------------------------------------------------------------

  /** What line `i` of the result's bill requires for the whole plan. */
  function LineRequired(result: AllocationResult, i: nat): real
    requires i < |result.bomItems|
  {
    result.bomItems[i].componentNum * result.planQuantity as real
  }

  /** What line `i`'s code was granted (`.get(code, 0)`). */
  function LineAllocated(result: AllocationResult, i: nat): real
    requires i < |result.bomItems|
  {
    Get(result.allocatedMaterials, result.bomItems[i].componentItemNumber)
  }

  /** A counted line's satisfaction: its allocation over its requirement,
      capped at 1, as a percentage. */
  function LineSatisfaction(granted: real, required: real): real
    requires required > 0.0
  {
    Min(granted / required, 1.0) * 100.0
  }

  /** A counted line contributes at most 100, at least 0 when its
      allocation is not negative, and exactly 100 when it is met. */
  lemma LineSatisfactionBounds(granted: real, required: real)
    requires required > 0.0
    ensures LineSatisfaction(granted, required) <= 100.0
    ensures granted >= 0.0 ==> LineSatisfaction(granted, required) >= 0.0
    ensures LineSatisfaction(granted, required) == 100.0 <==> granted >= required
  {
    var ratio := granted / required;
    assert ratio * required == granted;
    assert ratio >= 1.0 <==> granted >= required by {
      if ratio >= 1.0 {
        assert ratio * required >= 1.0 * required;
      } else {
        assert ratio * required < 1.0 * required;
      }
    }
    if granted >= 0.0 {
      assert ratio >= 0.0;
    }
  }

  /** The number of lines among the first `k` with a positive requirement. */
  function CountedLines(result: AllocationResult, k: nat): nat
    requires k <= |result.bomItems|
  {
    if k == 0 then 0
    else CountedLines(result, k - 1) + (if LineRequired(result, k - 1) > 0.0 then 1 else 0)
  }

  /** The sum of the satisfactions of the counted lines among the first `k`. */
  function SatisfactionTotal(result: AllocationResult, k: nat): real
    requires k <= |result.bomItems|
  {
    if k == 0 then 0.0
    else
      var required := LineRequired(result, k - 1);
      SatisfactionTotal(result, k - 1)
        + (if required > 0.0 then LineSatisfaction(LineAllocated(result, k - 1), required) else 0.0)
  }

  /** `_calculate_avg_material_satisfaction`: 0 for an empty allocation or
      bill, otherwise the mean over the counted lines, 0 when none counts. */
  function AverageSatisfaction(result: AllocationResult): real
  {
    var k := |result.bomItems|;
    if result.allocatedMaterials == map[] || result.bomItems == [] then 0.0
    else if CountedLines(result, k) > 0 then SatisfactionTotal(result, k) / CountedLines(result, k) as real
    else 0.0
  }

  /** `_calculate_avg_material_satisfaction`, as the loop the display runs. */
  method CalculateAvgMaterialSatisfaction(result: AllocationResult) returns (average: real)
    ensures average == AverageSatisfaction(result)
  {
    if result.allocatedMaterials == map[] || result.bomItems == [] {
      return 0.0;
    }
    var totalSatisfaction := 0.0;
    var materialCount := 0;
    var i := 0;
    while i < |result.bomItems|
      invariant 0 <= i <= |result.bomItems|
      invariant totalSatisfaction == SatisfactionTotal(result, i)
      invariant materialCount == CountedLines(result, i)
    {
      var item := result.bomItems[i];
      var requiredQty := item.componentNum * result.planQuantity as real;
      var allocatedQty := Get(result.allocatedMaterials, item.componentItemNumber);
      assert requiredQty == LineRequired(result, i) && allocatedQty == LineAllocated(result, i);
      if requiredQty > 0.0 {
        var satisfaction := Min(allocatedQty / requiredQty, 1.0) * 100.0;
        assert satisfaction == LineSatisfaction(LineAllocated(result, i), LineRequired(result, i));
        totalSatisfaction := totalSatisfaction + satisfaction;
        materialCount := materialCount + 1;
      }
      i := i + 1;
    }
    if materialCount > 0 {
      average := totalSatisfaction / materialCount as real;
    } else {
      average := 0.0;
    }
  }

  /** With non-negative allocations the total lies between 0 and 100 per
      counted line, and reaches 100 per counted line exactly when every
      counted line gets its full requirement. */
  lemma {:induction false} TotalBounds(result: AllocationResult, k: nat)
    requires k <= |result.bomItems| && NonNegative(result.allocatedMaterials)
    ensures 0.0 <= SatisfactionTotal(result, k) <= 100.0 * CountedLines(result, k) as real
    ensures SatisfactionTotal(result, k) == 100.0 * CountedLines(result, k) as real <==>
      forall i :: 0 <= i < k && LineRequired(result, i) > 0.0 ==> LineAllocated(result, i) >= LineRequired(result, i)
  {
    if k > 0 {
      TotalBounds(result, k - 1);
      var required := LineRequired(result, k - 1);
      if required > 0.0 {
        LineSatisfactionBounds(LineAllocated(result, k - 1), required);
      }
    }
  }

  /** With non-negative allocations the average lies between 0 and 100,
      and is 100 exactly when some line counts, the allocation is not
      empty and every counted line gets its full requirement. */
  lemma AverageWithinBounds(result: AllocationResult)
    requires NonNegative(result.allocatedMaterials)
    ensures 0.0 <= AverageSatisfaction(result) <= 100.0
    ensures AverageSatisfaction(result) == 100.0 <==>
      && result.allocatedMaterials != map[]
      && CountedLines(result, |result.bomItems|) > 0
      && forall i :: 0 <= i < |result.bomItems| && LineRequired(result, i) > 0.0 ==>
           LineAllocated(result, i) >= LineRequired(result, i)
  {
    var k := |result.bomItems|;
    TotalBounds(result, k);
    if result.allocatedMaterials != map[] && CountedLines(result, k) > 0 {
      MeanBounds(SatisfactionTotal(result, k), CountedLines(result, k) as real);
    }
  }

  /** A mean of `n` values each between 0 and 100. */
  lemma MeanBounds(total: real, n: real)
    requires n > 0.0 && 0.0 <= total <= 100.0 * n
    ensures 0.0 <= total / n <= 100.0
    ensures total / n == 100.0 <==> total == 100.0 * n
  {
    assert total / n * n == total;
  }

  /** Lines that require nothing are left out of both the sum and the
      count: appending one changes neither. */
  lemma UncountedLineIgnored(result: AllocationResult, item: BomItem)
    requires item.componentNum * result.planQuantity as real <= 0.0
    ensures var longer := result.(bomItems := result.bomItems + [item]);
      && CountedLines(longer, |longer.bomItems|) == CountedLines(result, |result.bomItems|)
      && SatisfactionTotal(longer, |longer.bomItems|) == SatisfactionTotal(result, |result.bomItems|)
  {
    var longer := result.(bomItems := result.bomItems + [item]);
    PrefixAgrees(result, longer, |result.bomItems|);
    assert LineRequired(longer, |result.bomItems|) <= 0.0;
  }

  /** Two results agreeing on the plan, the allocation and the first `k`
      lines agree on the count and the total over those lines. */
  lemma {:induction false} PrefixAgrees(result: AllocationResult, other: AllocationResult, k: nat)
    requires k <= |result.bomItems| && k <= |other.bomItems|
    requires result.planQuantity == other.planQuantity && result.allocatedMaterials == other.allocatedMaterials
    requires forall i :: 0 <= i < k ==> result.bomItems[i] == other.bomItems[i]
    ensures CountedLines(result, k) == CountedLines(other, k)
    ensures SatisfactionTotal(result, k) == SatisfactionTotal(other, k)
  {
    if k > 0 {
      PrefixAgrees(result, other, k - 1);
      assert result.bomItems[k - 1] == other.bomItems[k - 1];
      assert LineRequired(result, k - 1) == LineRequired(other, k - 1);
      assert LineAllocated(result, k - 1) == LineAllocated(other, k - 1);
    }
  }

  // ---------------------------------------------------------------------
  // Remaining stock
  // ---------------------------------------------------------------------

  /** The remaining stock the overview shows for one material. */
  function RemainingStock(detail: MaterialDetail): real
  {
    detail.totalInventory - detail.allocatedA - detail.allocatedB
  }

  /** A shared material with non-negative stock never shows a negative
      remainder, and the remainder is the stock minus both grants. */
  lemma RemainingStockOfShared(inventory: map<string, real>, configA: ModelConfig, configB: ModelConfig, c: string)
    requires c in Codes(configA.bomItems) && c in Codes(configB.bomItems)
    requires Get(inventory, c) >= 0.0
    ensures var out := AllocationOf(inventory, configA, configB);
      && c in out.materials
      && RemainingStock(out.materials[c]) == Get(inventory, c) - Get(out.modelA, c) - Get(out.modelB, c)
      && RemainingStock(out.materials[c]) >= 0.0
  {
    SharedMaterialConserved(inventory, configA, configB, c);
  }

  /** Any other material in the overview shows its whole stock remaining,
      even when one model was granted some of it. */
  lemma RemainingStockOfUnshared(inventory: map<string, real>, configA: ModelConfig, configB: ModelConfig, c: string)
    requires !(c in Codes(configA.bomItems) && c in Codes(configB.bomItems))
    ensures var out := AllocationOf(inventory, configA, configB);
      c in out.materials ==> RemainingStock(out.materials[c]) == Get(inventory, c)
  {
    AllocationPerCode(inventory, configA, configB, c);
  }
}
