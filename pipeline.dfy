/** One run of the system: the allocator's outcome on an inventory
    snapshot, handed to the satisfaction calculator. */
module Pipeline {
  import opened Common
  import opened Domain
  import opened Allocation
  import opened Calculator

  /** The satisfaction results of a run on `inventory`. */
  function RunOf(inventory: map<string, real>, configA: ModelConfig, configB: ModelConfig): SatisfactionResults
  {
    var outcome := AllocationOf(inventory, configA, configB);
    SatisfactionResults(ModelSatisfaction(configA, outcome.modelA), ModelSatisfaction(configB, outcome.modelB),
                        outcome.materials)
  }

  /** A model whose bill is well-formed and whose plan is positive. */
  predicate WellFormedConfig(config: ModelConfig)
  {
    WellFormedBom(config.bomItems) && config.planQuantity > 0
  }

  /** A model whose bill names each code once, needs a positive quantity
      of each per unit, and whose plan is positive; codes may be empty. */
  predicate BoundedConfig(config: ModelConfig)
  {
    DistinctCodes(config.bomItems) && PositiveBom(config.bomItems) && config.planQuantity > 0
  }

  /** More stock of every material never lowers the units either model
      can build, nor its satisfaction rate. */
  lemma SatisfactionMonotoneInInventory(inventory: map<string, real>, inventory': map<string, real>,
                                       configA: ModelConfig, configB: ModelConfig)
    requires WellFormedConfig(configA) && WellFormedConfig(configB) && NonNegative(inventory)
    requires forall c :: Get(inventory, c) <= Get(inventory', c)
    ensures var run, run' := RunOf(inventory, configA, configB), RunOf(inventory', configA, configB);
      && run.modelA.allocatedQuantity <= run'.modelA.allocatedQuantity
      && run.modelB.allocatedQuantity <= run'.modelB.allocatedQuantity
      && run.modelA.satisfactionRate <= run'.modelA.satisfactionRate
      && run.modelB.satisfactionRate <= run'.modelB.satisfactionRate
  {
    var out, out' := AllocationOf(inventory, configA, configB), AllocationOf(inventory', configA, configB);
    RequirementsNonNegative(configA.bomItems, configA.planQuantity);
    RequirementsNonNegative(configB.bomItems, configB.planQuantity);
    AllocationNonNegative(inventory, configA, configB);
    AllocationMonotoneInInventory(inventory, inventory', configA, configB);
    BuildableMonotone(configA.bomItems, configA.planQuantity, out.modelA, out'.modelA);
    BuildableMonotone(configB.bomItems, configB.planQuantity, out.modelB, out'.modelB);
    RateMonotone(configA.planQuantity, BuildableQuantity(configA.bomItems, configA.planQuantity, out.modelA),
                 BuildableQuantity(configA.bomItems, configA.planQuantity, out'.modelA));
    RateMonotone(configB.planQuantity, BuildableQuantity(configB.bomItems, configB.planQuantity, out.modelB),
                 BuildableQuantity(configB.bomItems, configB.planQuantity, out'.modelB));
  }

  /** For models with distinct codes and positive per-unit quantities and
      for non-negative stock, each model's satisfaction rate lies between
      0 and 100 after a run. */
  lemma RunRatesWithinBounds(inventory: map<string, real>, configA: ModelConfig, configB: ModelConfig)
    requires BoundedConfig(configA) && BoundedConfig(configB) && NonNegative(inventory)
    ensures var run := RunOf(inventory, configA, configB);
      && 0 <= run.modelA.allocatedQuantity <= configA.planQuantity
      && 0 <= run.modelB.allocatedQuantity <= configB.planQuantity
      && 0.0 <= run.modelA.satisfactionRate <= 100.0
      && 0.0 <= run.modelB.satisfactionRate <= 100.0
  {
    var out := AllocationOf(inventory, configA, configB);
    RequirementsNonNegative(configA.bomItems, configA.planQuantity);
    RequirementsNonNegative(configB.bomItems, configB.planQuantity);
    AllocationNonNegative(inventory, configA, configB);
    BuildableBounded(configA.bomItems, configA.planQuantity, out.modelA);
    BuildableBounded(configB.bomItems, configB.planQuantity, out.modelB);
  }

  /** A failed inventory load leaves nothing to allocate: a model with a
      non-empty, well-formed bill then builds no unit, at a rate of 0. */
  lemma EmptyInventoryBuildsNothing(configA: ModelConfig, configB: ModelConfig)
    requires WellFormedConfig(configA) && WellFormedConfig(configB)
    requires |configA.bomItems| > 0 && |configB.bomItems| > 0
    ensures var run := RunOf(map[], configA, configB);
      && run.modelA.allocatedQuantity == 0 && run.modelA.satisfactionRate == 0.0
      && run.modelB.allocatedQuantity == 0 && run.modelB.satisfactionRate == 0.0
  {
    var out := AllocationOf(map[], configA, configB);
    RequirementsNonNegative(configA.bomItems, configA.planQuantity);
    RequirementsNonNegative(configB.bomItems, configB.planQuantity);
    EmptyInventoryGrantsNothing(configA, configB);
    assert NonNegative(out.modelA) && NonNegative(out.modelB) by {
      AllocationNonNegative(map[], configA, configB);
    }
    NothingGrantedBuildsNothing(configA, out.modelA, 0);
    NothingGrantedBuildsNothing(configB, out.modelB, 0);
  }

  /** A model granted none of the material of any one line `j` builds
      nothing. */
  lemma NothingGrantedBuildsNothing(config: ModelConfig, allocation: map<string, real>, j: int)
    requires WellFormedConfig(config) && 0 <= j < |config.bomItems| && NonNegative(allocation)
    requires Get(allocation, config.bomItems[j].componentItemNumber) == 0.0
    ensures BuildableQuantity(config.bomItems, config.planQuantity, allocation) == 0
    ensures SatisfactionRate(config.planQuantity, 0) == 0.0
  {
    var bom := config.bomItems;
    BuildableWithinPlan(bom, config.planQuantity, allocation);
    var q := BuildableQuantity(bom, config.planQuantity, allocation);
    assert UnitsFit(q, bom[j], allocation);
  }

  /** The two single-line models of the shared-stock example. */
  function ExampleA(): ModelConfig { ModelConfig("A", "Model A", 100, 1, [BomItem("A", "M1", "", 1.0)]) }
  function ExampleB(): ModelConfig { ModelConfig("B", "Model B", 100, 2, [BomItem("B", "M1", "", 1.0)]) }

  /** Two models of 100 units, each needing one M1 per unit, share a
      stock of 150: A, served first, gets its 100 and B the remaining 50. */
  lemma SharedStockSplitAllocation()
    ensures AllocationOf(map["M1" := 150.0], ExampleA(), ExampleB())
         == AllocationOutcome(map["M1" := 100.0], map["M1" := 50.0], map["M1" := MaterialDetail(150.0, 100.0, 50.0)])
  {
    var configA, configB := ExampleA(), ExampleB();
    var inventory := map["M1" := 150.0];
    var out := AllocationOf(inventory, configA, configB);
    assert Codes(configA.bomItems) == {"M1"} && Codes(configB.bomItems) == {"M1"} by {
      assert configA.bomItems[0].componentItemNumber == "M1";
      assert configB.bomItems[0].componentItemNumber == "M1";
    }
    RequirementOfLastLine(configA.bomItems, 100, 0);
    RequirementOfLastLine(configB.bomItems, 100, 0);
    AllocationNeverOverServes(inventory, configA, configB);
    AllocationPerCode(inventory, configA, configB, "M1");
    SharedServesInPriorityOrder(1, 2, 100.0, 100.0, 150.0);
    assert out.modelA == map["M1" := 100.0];
    assert out.modelB == map["M1" := 50.0];
    forall c ensures c in out.materials <==> c == "M1" {
      AllocationPerCode(inventory, configA, configB, c);
    }
  }

  /** In the shared-stock example A is fully satisfied and B at 50%. */
  lemma SharedStockSplitExample()
    ensures var run := RunOf(map["M1" := 150.0], ExampleA(), ExampleB());
      && run.modelA.allocatedQuantity == 100 && run.modelA.satisfactionRate == 100.0
      && run.modelB.allocatedQuantity == 50 && run.modelB.satisfactionRate == 50.0
  {
    SharedStockSplitAllocation();
    var bomA, bomB := ExampleA().bomItems, ExampleB().bomItems;
    NoShortageBuildsPlan(bomA, 100, map["M1" := 100.0]);
    BuildableOfShortage(bomB, 100, map["M1" := 50.0], 0);
    assert LimitingLine(bomB, 100, map["M1" := 50.0], 1) == Some(0);
    assert Trunc(50.0 / 1.0) == 50;
  }
}
