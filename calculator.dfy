/** The satisfaction calculator (core/calculator.py): for one model and the
    materials it was allocated, the shortage of each material, the limiting
    material, how many units can be built and the satisfaction rate. */
module Calculator {
  import opened Common
  import opened Domain

  // ---------------------------------------------------------------------
  // Per-line quantities
  // ---------------------------------------------------------------------

  /** What a line needs for the whole plan. */
  function Required(item: BomItem, planQuantity: int): real
  {
    item.componentNum * planQuantity as real
  }

  /** What is missing of a line's requirement (not positive when met). */
  function Shortfall(item: BomItem, planQuantity: int, allocation: map<string, real>): real
  {
    Required(item, planQuantity) - Get(allocation, item.componentItemNumber)
  }

  /** A line gets less than it requires. */
  predicate IsShort(item: BomItem, planQuantity: int, allocation: map<string, real>)
  {
    Get(allocation, item.componentItemNumber) < Required(item, planQuantity)
  }

  /** The share of its requirement a line got; a line requiring nothing
      counts as 0. */
  function Ratio(item: BomItem, planQuantity: int, allocation: map<string, real>): real
  {
    var required := Required(item, planQuantity);
    if required > 0.0 then Get(allocation, item.componentItemNumber) / required else 0.0
  }

  // ---------------------------------------------------------------------
  // Shortages
  // ---------------------------------------------------------------------

  /** The shortage map after the first `k` lines: a line with a positive
      shortfall writes it, over any earlier entry for the same code. */
  function Shortages(bom: seq<BomItem>, planQuantity: int, allocation: map<string, real>, k: nat): map<string, real>
    requires k <= |bom|
  {
    if k == 0 then map[]
    else
      var before := Shortages(bom, planQuantity, allocation, k - 1);
      var shortage := Shortfall(bom[k - 1], planQuantity, allocation);
      if shortage > 0.0 then before[bom[k - 1].componentItemNumber := shortage] else before
  }

  /** The shortage map names exactly the codes of the lines that are short. */
  lemma {:induction false} ShortagesKeys(bom: seq<BomItem>, planQuantity: int, allocation: map<string, real>, k: nat)
    requires k <= |bom|
    ensures forall c :: c in Shortages(bom, planQuantity, allocation, k) <==>
      exists i :: 0 <= i < k && bom[i].componentItemNumber == c && IsShort(bom[i], planQuantity, allocation)
  {
    if k > 0 {
      ShortagesKeys(bom, planQuantity, allocation, k - 1);
      var m, before := Shortages(bom, planQuantity, allocation, k), Shortages(bom, planQuantity, allocation, k - 1);
      var last := bom[k - 1];
      forall c ensures c in m <==> exists i :: 0 <= i < k && bom[i].componentItemNumber == c && IsShort(bom[i], planQuantity, allocation) {
        if c == last.componentItemNumber && IsShort(last, planQuantity, allocation) {
          assert c in m;
        } else {
          assert c in m <==> c in before;
        }
      }
    }
  }

  /** Every entry of the shortage map is positive and is the shortfall of
      some line with that code. */
  lemma {:induction false} ShortagesValues(bom: seq<BomItem>, planQuantity: int, allocation: map<string, real>, k: nat)
    requires k <= |bom|
    ensures forall c | c in Shortages(bom, planQuantity, allocation, k) ::
      && Shortages(bom, planQuantity, allocation, k)[c] > 0.0
      && exists i :: 0 <= i < k && bom[i].componentItemNumber == c
                  && Shortfall(bom[i], planQuantity, allocation) == Shortages(bom, planQuantity, allocation, k)[c]
  {
    if k > 0 {
      ShortagesValues(bom, planQuantity, allocation, k - 1);
      var m, before := Shortages(bom, planQuantity, allocation, k), Shortages(bom, planQuantity, allocation, k - 1);
      var last := bom[k - 1];
      forall c | c in m
        ensures m[c] > 0.0
        ensures exists i :: 0 <= i < k && bom[i].componentItemNumber == c && Shortfall(bom[i], planQuantity, allocation) == m[c]
      {
        if c == last.componentItemNumber && Shortfall(last, planQuantity, allocation) > 0.0 {
          assert m[c] == Shortfall(bom[k - 1], planQuantity, allocation);
        } else {
          assert m[c] == before[c];
          var i :| 0 <= i < k - 1 && bom[i].componentItemNumber == c && Shortfall(bom[i], planQuantity, allocation) == before[c];
        }
      }
    }
  }

  /** With distinct codes, a short line's entry is that line's own
      shortfall. */
  lemma {:induction false} ShortagesOfDistinct(bom: seq<BomItem>, planQuantity: int, allocation: map<string, real>, k: nat)
    requires k <= |bom| && DistinctCodes(bom)
    ensures forall i :: 0 <= i < k && IsShort(bom[i], planQuantity, allocation) ==>
      var m := Shortages(bom, planQuantity, allocation, k);
      bom[i].componentItemNumber in m && m[bom[i].componentItemNumber] == Shortfall(bom[i], planQuantity, allocation)
  {
    if k > 0 {
      ShortagesOfDistinct(bom, planQuantity, allocation, k - 1);
    }
  }

  /** `_calculate_model_satisfaction`, first loop: the shortage map. */
  method CollectShortages(config: ModelConfig, allocation: map<string, real>) returns (shortage: map<string, real>)
    ensures shortage == Shortages(config.bomItems, config.planQuantity, allocation, |config.bomItems|)
  {
    var bom, plan := config.bomItems, config.planQuantity;
    shortage := map[];
    var i := 0;
    while i < |bom|
      invariant 0 <= i <= |bom|
      invariant shortage == Shortages(bom, plan, allocation, i)
    {
      var totalRequired := bom[i].componentNum * plan as real;
      var allocatedQty := Get(allocation, bom[i].componentItemNumber);
      assert totalRequired - allocatedQty == Shortfall(bom[i], plan, allocation);
      if totalRequired - allocatedQty > 0.0 {
        shortage := shortage[bom[i].componentItemNumber := totalRequired - allocatedQty];
      }
      i := i + 1;
    }
  }

  // ---------------------------------------------------------------------
  // The limiting material
  // ---------------------------------------------------------------------

  /** The line the scan of the first `k` lines keeps as limiting: a short
      line replaces the current choice only when its ratio is strictly
      smaller. */
  function LimitingLine(bom: seq<BomItem>, planQuantity: int, allocation: map<string, real>, k: nat): (r: Option<nat>)
    requires k <= |bom|
    ensures r.Some? ==> r.value < k
  {
    if k == 0 then None
    else
      var before := LimitingLine(bom, planQuantity, allocation, k - 1);
      if IsShort(bom[k - 1], planQuantity, allocation)
         && (before.None? || Ratio(bom[k - 1], planQuantity, allocation) < Ratio(bom[before.value], planQuantity, allocation))
      then Some(k - 1)
      else before
  }

  /** One more line either takes over as the limiting line or leaves it. */
  lemma LimitingLineStep(bom: seq<BomItem>, planQuantity: int, allocation: map<string, real>, i: nat)
    requires i < |bom|
    ensures var before := LimitingLine(bom, planQuantity, allocation, i);
      LimitingLine(bom, planQuantity, allocation, i + 1) ==
        if IsShort(bom[i], planQuantity, allocation)
           && (before.None? || Ratio(bom[i], planQuantity, allocation) < Ratio(bom[before.value], planQuantity, allocation))
        then Some(i) else before
  {
  }

  /** The limiting line is the first short line of minimal ratio, and
      there is one exactly when some line is short. */
  lemma {:induction false} LimitingLineIsFirstMinimum(bom: seq<BomItem>, planQuantity: int, allocation: map<string, real>, k: nat)
    requires k <= |bom|
    ensures var r := LimitingLine(bom, planQuantity, allocation, k);
      && (r.None? <==> forall j :: 0 <= j < k ==> !IsShort(bom[j], planQuantity, allocation))
      && (r.Some? ==>
            && IsShort(bom[r.value], planQuantity, allocation)
            && (forall j :: 0 <= j < k && IsShort(bom[j], planQuantity, allocation) ==>
                  Ratio(bom[r.value], planQuantity, allocation) <= Ratio(bom[j], planQuantity, allocation))
            && (forall j :: 0 <= j < r.value && IsShort(bom[j], planQuantity, allocation) ==>
                  Ratio(bom[r.value], planQuantity, allocation) < Ratio(bom[j], planQuantity, allocation)))
  {
    if k > 0 {
      LimitingLineIsFirstMinimum(bom, planQuantity, allocation, k - 1);
    }
  }

  /** `_calculate_model_satisfaction`, second loop: the limiting material
      and its ratio (`None` standing for the initial infinity). */
  method FindLimitingMaterial(config: ModelConfig, allocation: map<string, real>)
    returns (limitingMaterial: Option<string>, minRatio: Option<real>)
    ensures match LimitingLine(config.bomItems, config.planQuantity, allocation, |config.bomItems|)
      case None => limitingMaterial.None? && minRatio.None?
      case Some(m) =>
        && limitingMaterial == Some(config.bomItems[m].componentItemNumber)
        && minRatio == Some(Ratio(config.bomItems[m], config.planQuantity, allocation))
  {
    var bom, plan := config.bomItems, config.planQuantity;
    limitingMaterial, minRatio := None, None;
    ghost var line: Option<nat> := None;
    var i := 0;
    while i < |bom|
      invariant 0 <= i <= |bom|
      invariant line == LimitingLine(bom, plan, allocation, i)
      invariant line.None? ==> limitingMaterial.None? && minRatio.None?
      invariant line.Some? ==> limitingMaterial == Some(bom[line.value].componentItemNumber)
      invariant line.Some? ==> minRatio == Some(Ratio(bom[line.value], plan, allocation))
    {
      var totalRequired := bom[i].componentNum * plan as real;
      var allocatedQty := Get(allocation, bom[i].componentItemNumber);
      LimitingLineStep(bom, plan, allocation, i);
      if allocatedQty < totalRequired {
        var ratio := if totalRequired > 0.0 then allocatedQty / totalRequired else 0.0;
        assert ratio == Ratio(bom[i], plan, allocation);
        if minRatio.None? || ratio < minRatio.value {
          minRatio := Some(ratio);
          limitingMaterial := Some(bom[i].componentItemNumber);
          line := Some(i);
        }
      } else {
        assert !IsShort(bom[i], plan, allocation);
      }
      i := i + 1;
    }
  }

  /** The first line naming `code`, if any. */
  function FirstLineWith(bom: seq<BomItem>, code: string): (r: Option<nat>)
    ensures r.Some? ==> r.value < |bom| && bom[r.value].componentItemNumber == code
    ensures r.Some? ==> forall j :: 0 <= j < r.value ==> bom[j].componentItemNumber != code
    ensures r.None? ==> forall j :: 0 <= j < |bom| ==> bom[j].componentItemNumber != code
  {
    if bom == [] then None
    else if bom[0].componentItemNumber == code then Some(0)
    else match FirstLineWith(bom[1..], code)
      case None => None
      case Some(j) => Some(j + 1)
  }

  /** `_calculate_model_satisfaction`, third loop: the first line naming
      the limiting material. */
  method FindLimitingItem(bom: seq<BomItem>, code: string) returns (limitingItem: Option<BomItem>)
    ensures match FirstLineWith(bom, code)
      case None => limitingItem.None?
      case Some(f) => limitingItem == Some(bom[f])
  {
    limitingItem := None;
    var i := 0;
    while i < |bom|
      invariant 0 <= i <= |bom|
      invariant limitingItem.None?
      invariant forall j :: 0 <= j < i ==> bom[j].componentItemNumber != code
    {
      if bom[i].componentItemNumber == code {
        limitingItem := Some(bom[i]);
        break;
      }
      i := i + 1;
    }
  }

  // ---------------------------------------------------------------------
  // Buildable quantity and satisfaction rate
  // ---------------------------------------------------------------------

  /** The units that can be built: the plan when nothing is short;
      otherwise the truncated allocation of the limiting material over the
      per-unit quantity on the first line naming it, unless that code is
      empty or that per-unit quantity is not positive. */
  function BuildableQuantity(bom: seq<BomItem>, planQuantity: int, allocation: map<string, real>): int
  {
    if Shortages(bom, planQuantity, allocation, |bom|) == map[] then planQuantity
    else match LimitingLine(bom, planQuantity, allocation, |bom|)
      case None => planQuantity
      case Some(m) =>
        var code := bom[m].componentItemNumber;
        if |code| == 0 then planQuantity
        else match FirstLineWith(bom, code)
          case None => planQuantity
          case Some(f) =>
            if bom[f].componentNum > 0.0 then Trunc(Get(allocation, code) / bom[f].componentNum)
            else planQuantity
  }

  /** Units built as a percentage of the plan; 0 for a plan of 0 or less. */
  function SatisfactionRate(planQuantity: int, allocatedQuantity: int): real
  {
    if planQuantity > 0 then allocatedQuantity as real / planQuantity as real * 100.0 else 0.0
  }

  /** The result `_calculate_model_satisfaction` returns. */
  function ModelSatisfaction(config: ModelConfig, allocation: map<string, real>): AllocationResult
  {
    var quantity := BuildableQuantity(config.bomItems, config.planQuantity, allocation);
    AllocationResult(
      config.modelCode, config.modelName, config.planQuantity,
      quantity, SatisfactionRate(config.planQuantity, quantity),
      allocation, Shortages(config.bomItems, config.planQuantity, allocation, |config.bomItems|),
      config.bomItems)
  }

  /** `_calculate_model_satisfaction`. */
  method CalculateModelSatisfaction(config: ModelConfig, allocation: map<string, real>) returns (result: AllocationResult)
    ensures result == ModelSatisfaction(config, allocation)
  {
    var shortage := CollectShortages(config, allocation);
    var allocatedQuantity := config.planQuantity;
    if shortage != map[] {
      var limitingMaterial, minRatio := FindLimitingMaterial(config, allocation);
      if limitingMaterial.Some? && |limitingMaterial.value| > 0 && minRatio.Some? {
        var limitingItem := FindLimitingItem(config.bomItems, limitingMaterial.value);
        if limitingItem.Some? && limitingItem.value.componentNum > 0.0 {
          var allocatedForLimiting := Get(allocation, limitingMaterial.value);
          allocatedQuantity := Trunc(allocatedForLimiting / limitingItem.value.componentNum);
        }
      }
    }
    var satisfactionRate := 0.0;
    if config.planQuantity > 0 {
      satisfactionRate := allocatedQuantity as real / config.planQuantity as real * 100.0;
    }
    result := AllocationResult(
      config.modelCode, config.modelName, config.planQuantity,
      allocatedQuantity, satisfactionRate, allocation, shortage, config.bomItems);
  }

  /** `calculate_satisfaction`: each model on its own allocation; the
      material detail is passed through. */
  method CalculateSatisfaction(configA: ModelConfig, configB: ModelConfig, allocation: AllocationOutcome)
    returns (results: SatisfactionResults)
    ensures results.modelA == ModelSatisfaction(configA, allocation.modelA)
    ensures results.modelB == ModelSatisfaction(configB, allocation.modelB)
    ensures results.materials == allocation.materials
  {
    var resultA := CalculateModelSatisfaction(configA, allocation.modelA);
    var resultB := CalculateModelSatisfaction(configB, allocation.modelB);
    results := SatisfactionResults(resultA, resultB, allocation.materials);
  }

  // ---------------------------------------------------------------------
  // Properties of the buildable quantity
  // ---------------------------------------------------------------------

  /** The bill of materials the calculator's bound relies on: every code
      named, named once, and needed in a positive quantity per unit. */
  predicate WellFormedBom(bom: seq<BomItem>)
  {
    && DistinctCodes(bom)
    && forall i :: 0 <= i < |bom| ==> |bom[i].componentItemNumber| > 0 && bom[i].componentNum > 0.0
  }

  /** `q` units need no more of `item`'s material than is allocated. */
  predicate UnitsFit(q: int, item: BomItem, allocation: map<string, real>)
  {
    q as real * item.componentNum <= Get(allocation, item.componentItemNumber)
  }

  /** Every line needs a positive quantity per unit. */
  predicate PositiveBom(bom: seq<BomItem>)
  {
    forall i :: 0 <= i < |bom| ==> bom[i].componentNum > 0.0
  }

  /** When no line is short the whole plan is buildable, at 100% for a
      positive plan. */
  lemma NoShortageBuildsPlan(bom: seq<BomItem>, planQuantity: int, allocation: map<string, real>)
    requires forall i :: 0 <= i < |bom| ==> !IsShort(bom[i], planQuantity, allocation)
    ensures BuildableQuantity(bom, planQuantity, allocation) == planQuantity
    ensures planQuantity > 0 ==> SatisfactionRate(planQuantity, BuildableQuantity(bom, planQuantity, allocation)) == 100.0
  {
    var m := Shortages(bom, planQuantity, allocation, |bom|);
    ShortagesKeys(bom, planQuantity, allocation, |bom|);
    assert m.Keys == {};
    assert m == map[];
  }

  /** A short line's allocation over its per-unit quantity stays below
      the plan. */
  lemma QuotientBelowPlan(a: real, p: real, plan: real)
    requires a >= 0.0 && p > 0.0 && a < p * plan
    ensures a / p < plan
  {
    assert a / p * p == a;
  }

  /** `q` whole units need no more than `a` when `q` is at most `a / p`. */
  lemma UnitsWithin(q: int, a: real, p: real)
    requires p > 0.0 && q as real <= a / p
    ensures q as real * p <= a
  {
    assert q as real * p <= (a / p) * p;
  }

  /** A quotient no larger than another line's, once both are divided by
      the same plan, leaves enough of that line for `q` units. */
  lemma UnitsWithinByRatio(q: int, am: real, pm: real, aj: real, pj: real, plan: real)
    requires pm > 0.0 && pj > 0.0 && plan > 0.0 && q as real <= am / pm
    requires am / (pm * plan) <= aj / (pj * plan)
    ensures q as real * pj <= aj
  {
    assert am / (pm * plan) == (am / pm) / plan;
    assert aj / (pj * plan) == (aj / pj) / plan;
    assert am / pm <= aj / pj;
    UnitsWithin(q, aj, pj);
  }

  /** At most the plan fits into a line that gets its full requirement. */
  lemma UnitsWithinPlan(q: int, plan: real, pj: real, aj: real)
    requires q as real <= plan && pj > 0.0 && pj * plan <= aj
    ensures q as real * pj <= aj
  {
    assert q as real * pj <= plan * pj;
  }

  /** More units out of the same positive plan never give a lower rate. */
  lemma RateMonotone(planQuantity: int, q: int, q': int)
    requires planQuantity > 0 && q <= q'
    ensures SatisfactionRate(planQuantity, q) <= SatisfactionRate(planQuantity, q')
  {
    var p := planQuantity as real;
    assert q as real / p <= q' as real / p by {
      assert q as real / p * p == q as real && q' as real / p * p == q' as real;
    }
  }

  /** The rate of `q` units out of a positive plan. */
  lemma RateBounds(planQuantity: int, q: int)
    requires 0 <= q <= planQuantity
    ensures 0.0 <= SatisfactionRate(planQuantity, q) <= 100.0
    ensures planQuantity > 0 ==> (SatisfactionRate(planQuantity, q) == 100.0 <==> q == planQuantity)
  {
    if planQuantity > 0 {
      var r := q as real / planQuantity as real;
      assert r * planQuantity as real == q as real;
      assert 0.0 <= r <= 1.0;
    }
  }

  /** When some line is short, the buildable quantity is the truncated
      allocation of the limiting line over its own per-unit quantity. */
  lemma BuildableOfShortage(bom: seq<BomItem>, planQuantity: int, allocation: map<string, real>, s: nat)
    requires WellFormedBom(bom) && s < |bom| && IsShort(bom[s], planQuantity, allocation)
    ensures LimitingLine(bom, planQuantity, allocation, |bom|).Some?
    ensures var m := LimitingLine(bom, planQuantity, allocation, |bom|).value;
      BuildableQuantity(bom, planQuantity, allocation)
        == Trunc(Get(allocation, bom[m].componentItemNumber) / bom[m].componentNum)
  {
    ShortagesKeys(bom, planQuantity, allocation, |bom|);
    assert bom[s].componentItemNumber in Shortages(bom, planQuantity, allocation, |bom|);
    LimitingLineIsFirstMinimum(bom, planQuantity, allocation, |bom|);
    var m := LimitingLine(bom, planQuantity, allocation, |bom|).value;
    var f := FirstLineWith(bom, bom[m].componentItemNumber).value;
    assert f == m;
  }

  /** The arithmetic behind the bound: `Trunc(am / pm)` units of a short
      line stay below the plan and fit into any line whose ratio is no
      smaller, or which is not short. */
  lemma LimitingArithmetic(am: real, pm: real, aj: real, pj: real, plan: real)
    requires am >= 0.0 && pm > 0.0 && pj > 0.0 && plan > 0.0 && am < pm * plan
    requires aj < pj * plan ==> am / (pm * plan) <= aj / (pj * plan)
    ensures Trunc(am / pm) as real < plan
    ensures Trunc(am / pm) as real * pj <= aj
  {
    var q := Trunc(am / pm);
    QuotientBelowPlan(am, pm, plan);
    if aj < pj * plan {
      UnitsWithinByRatio(q, am, pm, aj, pj, plan);
    } else {
      UnitsWithinPlan(q, plan, pj, aj);
    }
  }

  /** For a positive per-unit quantity and plan, the ratio is the
      allocation over a positive requirement. */
  lemma RatioOfPositive(item: BomItem, planQuantity: int, allocation: map<string, real>)
    requires item.componentNum > 0.0 && planQuantity > 0
    ensures Required(item, planQuantity) == item.componentNum * planQuantity as real > 0.0
    ensures Ratio(item, planQuantity, allocation)
      == Get(allocation, item.componentItemNumber) / (item.componentNum * planQuantity as real)
  {
  }

  /** A short line `limiting` whose ratio is no larger than that of any
      short line `other`: its truncated quotient stays below the plan and
      fits into `other`'s allocation. */
  lemma LineSupports(limiting: BomItem, other: BomItem, planQuantity: int, allocation: map<string, real>)
    requires limiting.componentNum > 0.0 && other.componentNum > 0.0 && planQuantity > 0
    requires Get(allocation, limiting.componentItemNumber) >= 0.0
    requires IsShort(limiting, planQuantity, allocation)
    requires IsShort(other, planQuantity, allocation) ==>
      Ratio(limiting, planQuantity, allocation) <= Ratio(other, planQuantity, allocation)
    ensures var q := Trunc(Get(allocation, limiting.componentItemNumber) / limiting.componentNum);
      q < planQuantity && UnitsFit(q, other, allocation)
  {
    RatioOfPositive(limiting, planQuantity, allocation);
    RatioOfPositive(other, planQuantity, allocation);
    LimitingArithmetic(Get(allocation, limiting.componentItemNumber), limiting.componentNum,
                       Get(allocation, other.componentItemNumber), other.componentNum, planQuantity as real);
  }

  /** The limiting line's truncated quotient stays below the plan and can
      be built from every line's allocation. */
  lemma LimitingSupportsEveryLine(bom: seq<BomItem>, planQuantity: int, allocation: map<string, real>, m: nat, j: nat)
    requires PositiveBom(bom) && planQuantity > 0 && NonNegative(allocation)
    requires LimitingLine(bom, planQuantity, allocation, |bom|) == Some(m) && j < |bom|
    ensures var am, pm := Get(allocation, bom[m].componentItemNumber), bom[m].componentNum;
      && Trunc(am / pm) < planQuantity
      && UnitsFit(Trunc(am / pm), bom[j], allocation)
  {
    var limiting, other := bom[m], bom[j];
    assert IsShort(limiting, planQuantity, allocation)
      && (IsShort(other, planQuantity, allocation) ==>
            Ratio(limiting, planQuantity, allocation) <= Ratio(other, planQuantity, allocation)) by {
      LimitingLineFacts(bom, planQuantity, allocation, m, j);
    }
    assert limiting.componentNum > 0.0 && other.componentNum > 0.0 by {
      assert m < |bom|;
    }
    assert Get(allocation, limiting.componentItemNumber) >= 0.0;
    LineSupports(limiting, other, planQuantity, allocation);
  }

  /** The limiting line is short and its ratio is no larger than that of
      the short line `j`. */
  lemma LimitingLineFacts(bom: seq<BomItem>, planQuantity: int, allocation: map<string, real>, m: nat, j: nat)
    requires LimitingLine(bom, planQuantity, allocation, |bom|) == Some(m) && j < |bom|
    ensures IsShort(bom[m], planQuantity, allocation)
    ensures IsShort(bom[j], planQuantity, allocation) ==>
      Ratio(bom[m], planQuantity, allocation) <= Ratio(bom[j], planQuantity, allocation)
  {
    LimitingLineIsFirstMinimum(bom, planQuantity, allocation, |bom|);
  }

  /** With no short line, the plan is built and fits every line. */
  lemma BuildableWithoutShortage(bom: seq<BomItem>, planQuantity: int, allocation: map<string, real>)
    requires forall i :: 0 <= i < |bom| ==> !IsShort(bom[i], planQuantity, allocation)
    requires forall i :: 0 <= i < |bom| ==> bom[i].componentNum > 0.0
    ensures var q := BuildableQuantity(bom, planQuantity, allocation);
      && q == planQuantity
      && forall j :: 0 <= j < |bom| ==> UnitsFit(q, bom[j], allocation)
  {
    NoShortageBuildsPlan(bom, planQuantity, allocation);
    forall j | 0 <= j < |bom|
      ensures UnitsFit(planQuantity, bom[j], allocation)
    {
      assert !IsShort(bom[j], planQuantity, allocation);
    }
  }

  /** With a short line, fewer units than planned are built, they fit
      every line, and they are the truncated quotient of some line. */
  lemma BuildableWithShortage(bom: seq<BomItem>, planQuantity: int, allocation: map<string, real>, s: nat)
    requires WellFormedBom(bom) && planQuantity > 0 && NonNegative(allocation)
    requires s < |bom| && IsShort(bom[s], planQuantity, allocation)
    ensures var q := BuildableQuantity(bom, planQuantity, allocation);
      && 0 <= q < planQuantity
      && (forall j :: 0 <= j < |bom| ==> UnitsFit(q, bom[j], allocation))
      && exists j :: 0 <= j < |bom| && q == Trunc(Get(allocation, bom[j].componentItemNumber) / bom[j].componentNum)
  {
    BuildableOfShortage(bom, planQuantity, allocation, s);
    var m := LimitingLine(bom, planQuantity, allocation, |bom|).value;
    var q := BuildableQuantity(bom, planQuantity, allocation);
    assert q == Trunc(Get(allocation, bom[m].componentItemNumber) / bom[m].componentNum);
    LimitingSupportsAll(bom, planQuantity, allocation, m);
    assert m < |bom|;
  }

  /** The limiting line's truncated quotient fits every line. */
  lemma LimitingSupportsAll(bom: seq<BomItem>, planQuantity: int, allocation: map<string, real>, m: nat)
    requires PositiveBom(bom) && planQuantity > 0 && NonNegative(allocation)
    requires LimitingLine(bom, planQuantity, allocation, |bom|) == Some(m)
    ensures var q := Trunc(Get(allocation, bom[m].componentItemNumber) / bom[m].componentNum);
      && 0 <= q < planQuantity
      && forall j :: 0 <= j < |bom| ==> UnitsFit(q, bom[j], allocation)
  {
    var q := Trunc(Get(allocation, bom[m].componentItemNumber) / bom[m].componentNum);
    forall j | 0 <= j < |bom| ensures UnitsFit(q, bom[j], allocation) {
      LimitingSupportsEveryLine(bom, planQuantity, allocation, m, j);
    }
    LimitingSupportsEveryLine(bom, planQuantity, allocation, m, m);
  }

  /** For a well-formed bill, a positive plan and non-negative
      allocations: the buildable quantity lies between 0 and the plan,
      equals the plan exactly when no line is short, can be built from
      every line's allocation, and is either the plan or the truncated
      allocation over per-unit quantity of some line; the rate lies
      between 0 and 100 and is 100 exactly when no line is short. */
  lemma BuildableWithinPlan(bom: seq<BomItem>, planQuantity: int, allocation: map<string, real>)
    requires WellFormedBom(bom) && planQuantity > 0 && NonNegative(allocation)
    ensures var q := BuildableQuantity(bom, planQuantity, allocation);
      && 0 <= q <= planQuantity
      && (q == planQuantity <==> forall i :: 0 <= i < |bom| ==> !IsShort(bom[i], planQuantity, allocation))
      && (forall j :: 0 <= j < |bom| ==> UnitsFit(q, bom[j], allocation))
      && (q == planQuantity ||
            exists j :: 0 <= j < |bom| && q == Trunc(Get(allocation, bom[j].componentItemNumber) / bom[j].componentNum))
      && 0.0 <= SatisfactionRate(planQuantity, q) <= 100.0
      && (SatisfactionRate(planQuantity, q) == 100.0 <==> q == planQuantity)
  {
    if forall i :: 0 <= i < |bom| ==> !IsShort(bom[i], planQuantity, allocation) {
      BuildableWithoutShortage(bom, planQuantity, allocation);
    } else {
      var s :| 0 <= s < |bom| && IsShort(bom[s], planQuantity, allocation);
      BuildableWithShortage(bom, planQuantity, allocation, s);
    }
    RateBounds(planQuantity, BuildableQuantity(bom, planQuantity, allocation));
  }

  /** The bounds alone need no non-empty codes: with distinct codes,
      positive per-unit quantities, a positive plan and non-negative
      allocations, the buildable quantity lies between 0 and the plan and
      the rate between 0 and 100, since a limiting line with an empty code
      leaves the plan in place. */
  lemma BuildableBounded(bom: seq<BomItem>, planQuantity: int, allocation: map<string, real>)
    requires DistinctCodes(bom) && PositiveBom(bom) && planQuantity > 0 && NonNegative(allocation)
    ensures var q := BuildableQuantity(bom, planQuantity, allocation);
      && 0 <= q <= planQuantity
      && 0.0 <= SatisfactionRate(planQuantity, q) <= 100.0
  {
    if s :| 0 <= s < |bom| && IsShort(bom[s], planQuantity, allocation) {
      ShortagesKeys(bom, planQuantity, allocation, |bom|);
      assert bom[s].componentItemNumber in Shortages(bom, planQuantity, allocation, |bom|);
      LimitingLineIsFirstMinimum(bom, planQuantity, allocation, |bom|);
      var m := LimitingLine(bom, planQuantity, allocation, |bom|).value;
      if |bom[m].componentItemNumber| > 0 {
        assert FirstLineWith(bom, bom[m].componentItemNumber) == Some(m);
        LimitingSupportsAll(bom, planQuantity, allocation, m);
      }
    } else {
      NoShortageBuildsPlan(bom, planQuantity, allocation);
    }
    RateBounds(planQuantity, BuildableQuantity(bom, planQuantity, allocation));
  }

  /** Whole units that fit into `a` number no more than `Trunc(a / p)`. */
  lemma UnitsBelowTrunc(q: int, a: real, p: real)
    requires p > 0.0 && a >= 0.0 && q as real * p <= a
    ensures q <= Trunc(a / p)
  {
    assert q as real <= a / p by {
      assert (a / p) * p == a;
    }
  }

  /** A line whose truncated quotient is the buildable quantity, unless
      that is the plan. */
  lemma QuotientLine(bom: seq<BomItem>, planQuantity: int, allocation: map<string, real>) returns (j: nat, q: int)
    requires WellFormedBom(bom)
    ensures q == BuildableQuantity(bom, planQuantity, allocation)
    ensures q == planQuantity || (j < |bom| && q == Trunc(Get(allocation, bom[j].componentItemNumber) / bom[j].componentNum))
  {
    j, q := 0, BuildableQuantity(bom, planQuantity, allocation);
    if s :| 0 <= s < |bom| && IsShort(bom[s], planQuantity, allocation) {
      BuildableOfShortage(bom, planQuantity, allocation, s);
      j := LimitingLine(bom, planQuantity, allocation, |bom|).value;
    } else {
      NoShortageBuildsPlan(bom, planQuantity, allocation);
    }
  }

  /** The buildable quantity is at most the plan. */
  lemma BuildableAtMostPlan(bom: seq<BomItem>, planQuantity: int, allocation: map<string, real>)
    requires WellFormedBom(bom) && planQuantity > 0 && NonNegative(allocation)
    ensures BuildableQuantity(bom, planQuantity, allocation) <= planQuantity
  {
    BuildableWithinPlan(bom, planQuantity, allocation);
  }

  /** The buildable quantity is at most the plan and fits line `j`. */
  lemma BuildableFits(bom: seq<BomItem>, planQuantity: int, allocation: map<string, real>, j: nat) returns (q: int)
    requires WellFormedBom(bom) && planQuantity > 0 && NonNegative(allocation) && j < |bom|
    ensures q == BuildableQuantity(bom, planQuantity, allocation)
    ensures q <= planQuantity && UnitsFit(q, bom[j], allocation)
  {
    q := BuildableQuantity(bom, planQuantity, allocation);
    BuildableWithinPlan(bom, planQuantity, allocation);
  }

  /** Whole units `q` that fit into `a`, with `a` no more than `a'`, are
      no more than `q'` when `q'` is the plan or the units `a'` buys. */
  lemma UnitsMonotone(q: int, q': int, planQuantity: int, a: real, a': real, p: real)
    requires q <= planQuantity && p > 0.0 && 0.0 <= a <= a' && q as real * p <= a
    requires q' == planQuantity || q' == Trunc(a' / p)
    ensures q <= q'
  {
    if q' != planQuantity {
      UnitsBelowTrunc(q, a', p);
    }
  }

  /** Giving a model at least as much of every material never lowers the
      units it can build. */
  lemma BuildableMonotone(bom: seq<BomItem>, planQuantity: int, allocation: map<string, real>, allocation': map<string, real>)
    requires WellFormedBom(bom) && planQuantity > 0 && NonNegative(allocation)
    requires forall c :: Get(allocation, c) <= Get(allocation', c)
    ensures BuildableQuantity(bom, planQuantity, allocation) <= BuildableQuantity(bom, planQuantity, allocation')
  {
    var j, q' := QuotientLine(bom, planQuantity, allocation');
    if j < |bom| {
      var q := BuildableFits(bom, planQuantity, allocation, j);
      MonotoneThroughLine(q, q', planQuantity, bom[j], allocation, allocation');
    } else {
      BuildableAtMostPlan(bom, planQuantity, allocation);
    }
  }

  /** The monotonicity step on line `item`: `q` units fit its smaller
      allocation and `q'` is the plan or the units its larger allocation
      buys, so `q <= q'`. */
  lemma MonotoneThroughLine(q: int, q': int, planQuantity: int, item: BomItem,
                            allocation: map<string, real>, allocation': map<string, real>)
    requires item.componentNum > 0.0
    requires 0.0 <= Get(allocation, item.componentItemNumber) <= Get(allocation', item.componentItemNumber)
    requires q <= planQuantity && UnitsFit(q, item, allocation)
    requires q' == planQuantity || q' == Trunc(Get(allocation', item.componentItemNumber) / item.componentNum)
    ensures q <= q'
  {
    UnitsMonotone(q, q', planQuantity, Get(allocation, item.componentItemNumber),
                  Get(allocation', item.componentItemNumber), item.componentNum);
  }

  // ---------------------------------------------------------------------
  // Worked cases
  // ---------------------------------------------------------------------

  /** Two units of M1 and one of M2 per unit, a plan of 10 and 10 of each
      allocated: M1 is short by 10 and limiting, 5 units are buildable,
      50%. */
  lemma HalfSatisfiedExample()
    ensures var bom := [BomItem("A", "M1", "", 2.0), BomItem("A", "M2", "", 1.0)];
      var allocation := map["M1" := 10.0, "M2" := 10.0];
      && Shortages(bom, 10, allocation, 2) == map["M1" := 10.0]
      && LimitingLine(bom, 10, allocation, 2) == Some(0)
      && BuildableQuantity(bom, 10, allocation) == 5
      && SatisfactionRate(10, 5) == 50.0
  {
    var bom := [BomItem("A", "M1", "", 2.0), BomItem("A", "M2", "", 1.0)];
    var allocation := map["M1" := 10.0, "M2" := 10.0];
    assert IsShort(bom[0], 10, allocation) && !IsShort(bom[1], 10, allocation);
    assert Shortages(bom, 10, allocation, 1) == map["M1" := 10.0];
    assert LimitingLine(bom, 10, allocation, 1) == Some(0);
    assert FirstLineWith(bom, "M1") == Some(0);
    assert Trunc(10.0 / 2.0) == 5;
  }

  /** An empty code can become the limiting material, and then the
      recomputation is skipped and the plan kept. With no stock at all a
      one-line bill still builds the plan. A short empty-code line with
      the lowest ratio hides a later short line: X is short by half, yet
      10 of 10 units are reported. Granting the empty code's material
      hands the limit to X, so more stock builds fewer units (10, then 5). */
  lemma EmptyCodeKeepsPlan()
    ensures BuildableQuantity([BomItem("A", "", "", 1.0)], 10, map[]) == 10
    ensures var bom := [BomItem("A", "X", "", 1.0), BomItem("A", "", "", 1.0)];
      && IsShort(bom[0], 10, map["X" := 5.0])
      && LimitingLine(bom, 10, map["X" := 5.0], 2) == Some(1)
      && BuildableQuantity(bom, 10, map["X" := 5.0]) == 10
    ensures var bom := [BomItem("A", "", "", 1.0), BomItem("A", "X", "", 1.0)];
      && BuildableQuantity(bom, 10, map["X" := 5.0]) == 10
      && BuildableQuantity(bom, 10, map["" := 10.0, "X" := 5.0]) == 5
  {
    var single := [BomItem("A", "", "", 1.0)];
    assert IsShort(single[0], 10, map[]);
    assert "" in Shortages(single, 10, map[], 1);
    assert LimitingLine(single, 10, map[], 1) == Some(0);
    var hidden, stock := [BomItem("A", "X", "", 1.0), BomItem("A", "", "", 1.0)], map["X" := 5.0];
    assert IsShort(hidden[0], 10, stock) && IsShort(hidden[1], 10, stock);
    assert "X" in Shortages(hidden, 10, stock, 2);
    assert LimitingLine(hidden, 10, stock, 1) == Some(0);
    assert Ratio(hidden[1], 10, stock) < Ratio(hidden[0], 10, stock);
    assert LimitingLine(hidden, 10, stock, 2) == Some(1);
    var bom := [BomItem("A", "", "", 1.0), BomItem("A", "X", "", 1.0)];
    var before, after := map["X" := 5.0], map["" := 10.0, "X" := 5.0];
    assert IsShort(bom[0], 10, before) && IsShort(bom[1], 10, before);
    assert "" in Shortages(bom, 10, before, 2);
    assert LimitingLine(bom, 10, before, 1) == Some(0);
    assert LimitingLine(bom, 10, before, 2) == Some(0);
    assert !IsShort(bom[0], 10, after) && IsShort(bom[1], 10, after);
    assert "X" in Shortages(bom, 10, after, 2);
    assert LimitingLine(bom, 10, after, 1) == None;
    assert LimitingLine(bom, 10, after, 2) == Some(1);
    assert FirstLineWith(bom, "X") == Some(1);
    assert Trunc(5.0 / 1.0) == 5;
  }

  /** With a code repeated on two lines, the ratio comes from the later
      line but the per-unit quantity from the first, so the buildable
      quantity can exceed the plan: 20 units out of 10, a rate of 200%. */
  lemma RepeatedCodeCanExceedPlan()
    ensures var bom := [BomItem("A", "M", "", 1.0), BomItem("A", "M", "", 3.0)];
      var allocation := map["M" := 20.0];
      && BuildableQuantity(bom, 10, allocation) == 20
      && SatisfactionRate(10, 20) == 200.0
  {
    var bom := [BomItem("A", "M", "", 1.0), BomItem("A", "M", "", 3.0)];
    var allocation := map["M" := 20.0];
    assert !IsShort(bom[0], 10, allocation) && IsShort(bom[1], 10, allocation);
    assert Shortages(bom, 10, allocation, 1) == map[];
    assert "M" in Shortages(bom, 10, allocation, 2);
    assert LimitingLine(bom, 10, allocation, 1) == None;
    assert LimitingLine(bom, 10, allocation, 2) == Some(1);
    assert FirstLineWith(bom, "M") == Some(0);
    assert Get(allocation, bom[1].componentItemNumber) / bom[0].componentNum == 20.0;
  }
}
