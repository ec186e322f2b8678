/** The inventory allocator (core/allocation.py): splits one inventory
    snapshot between two build orders A and B. Materials used by only one
    order go to it, capped by its requirement; materials used by both go
    first to the order with the lower priority value, then the rest to the
    other, each capped by its requirement and by what remains. */
module Allocation {
  import opened Common
  import opened Domain

  // ---------------------------------------------------------------------
  // Loading the inventory snapshot
  // ---------------------------------------------------------------------

  /** The stock a row reports; a NULL (or zero) reading counts as 0.0. */
  function Reading(row: InventoryRow): real
  {
    match row.clabs
    case Some(q) => q
    case None => 0.0
  }

  /** The material codes that occur in `rows`. */
  function RowCodes(rows: seq<InventoryRow>): set<string>
  {
    set i | 0 <= i < |rows| :: rows[i].matnr
  }

  lemma RowCodesSnoc(rows: seq<InventoryRow>, row: InventoryRow)
    ensures RowCodes(rows + [row]) == RowCodes(rows) + {row.matnr}
  {
    var s := rows + [row];
    forall c | c in RowCodes(s) ensures c in RowCodes(rows) + {row.matnr} {
      var i :| 0 <= i < |s| && s[i].matnr == c;
      if i < |rows| { assert rows[i] == s[i]; }
    }
    forall c | c in RowCodes(rows) ensures c in RowCodes(s) {
      var i :| 0 <= i < |rows| && rows[i].matnr == c;
      assert s[i] == rows[i];
    }
    assert s[|rows|] == row;
  }

  /** The snapshot built from the rows by the dictionary comprehension of
      `load_inventory_data`: one entry per code, a later row for the same
      code overwriting an earlier one. */
  function InventoryFromRows(rows: seq<InventoryRow>): (inventory: map<string, real>)
    ensures inventory.Keys == RowCodes(rows)
  {
    if rows == [] then map[]
    else
      var init, last := rows[..|rows| - 1], rows[|rows| - 1];
      assert rows == init + [last];
      RowCodesSnoc(init, last);
      InventoryFromRows(init)[last.matnr := Reading(last)]
  }

  /** A code's stock is the reading of the last row that names it. */
  lemma {:induction false} InventoryLastRowWins(rows: seq<InventoryRow>, i: int)
    requires 0 <= i < |rows|
    requires forall j :: i < j < |rows| ==> rows[j].matnr != rows[i].matnr
    ensures InventoryFromRows(rows)[rows[i].matnr] == Reading(rows[i])
  {
    if i < |rows| - 1 {
      InventoryLastRowWins(rows[..|rows| - 1], i);
    }
  }

  /** The snapshot after a load: a query that raised empties it, a query
      that returned no rows leaves it as it was, and otherwise the rows
      replace it. */
  function LoadedInventory(read: InventoryRead, current: map<string, real>): map<string, real>
  {
    match read
    case ReadFailed => map[]
    case Rows(rows) => if |rows| == 0 then current else InventoryFromRows(rows)
  }

  // ---------------------------------------------------------------------
  // Materials and requirements
  // ---------------------------------------------------------------------

  /** `_extract_materials`: component code to per-unit quantity; a later
      line for the same code overwrites an earlier one. */
  function ExtractMaterials(bom: seq<BomItem>): (materials: map<string, real>)
    ensures materials.Keys == Codes(bom)
  {
    if bom == [] then map[]
    else
      var init, last := bom[..|bom| - 1], bom[|bom| - 1];
      assert bom == init + [last];
      CodesSnoc(init, last);
      ExtractMaterials(init)[last.componentItemNumber := last.componentNum]
  }

  /** A code's per-unit quantity is the one on the last line naming it:
      repeated codes overwrite, they are not summed. */
  lemma {:induction false} ExtractLastLineWins(bom: seq<BomItem>, i: int)
    requires IsLastLineOf(bom, i)
    ensures ExtractMaterials(bom)[bom[i].componentItemNumber] == bom[i].componentNum
  {
    if i < |bom| - 1 {
      ExtractLastLineWins(bom[..|bom| - 1], i);
    }
  }

  /** `_find_shared_materials`: codes in both bills of materials. */
  function FindSharedMaterials(materialsA: map<string, real>, materialsB: map<string, real>): set<string>
  {
    materialsA.Keys * materialsB.Keys
  }

  /** `_find_exclusive_materials`: codes of the first bill that the second
      does not use. */
  function FindExclusiveMaterials(materialsA: map<string, real>, materialsB: map<string, real>): set<string>
  {
    materialsA.Keys - materialsB.Keys
  }

  /** Shared and exclusive codes are disjoint and together make up each
      bill's code set. */
  lemma MaterialPartition(bomA: seq<BomItem>, bomB: seq<BomItem>)
    ensures var ma, mb := ExtractMaterials(bomA), ExtractMaterials(bomB);
      var shared := FindSharedMaterials(ma, mb);
      var exclusiveA, exclusiveB := FindExclusiveMaterials(ma, mb), FindExclusiveMaterials(mb, ma);
      && shared == Codes(bomA) * Codes(bomB)
      && shared !! exclusiveA && shared !! exclusiveB && exclusiveA !! exclusiveB
      && shared + exclusiveA == Codes(bomA)
      && shared + exclusiveB == Codes(bomB)
  {
  }

  /** A model's total requirement per code: the per-unit quantity times the
      plan quantity. */
  function Requirements(bom: seq<BomItem>, planQuantity: int): map<string, real>
  {
    Scaled(ExtractMaterials(bom), planQuantity as real)
  }

  /** Every value of `m` multiplied by `factor`. */
  function Scaled(m: map<string, real>, factor: real): map<string, real>
  {
    map c | c in m :: m[c] * factor
  }

  /** Requirements are keyed by exactly the bill's codes, and a code's
      requirement comes from the last line naming it. */
  lemma RequirementOfLastLine(bom: seq<BomItem>, planQuantity: int, i: int)
    requires IsLastLineOf(bom, i)
    ensures Requirements(bom, planQuantity).Keys == Codes(bom)
    ensures Requirements(bom, planQuantity)[bom[i].componentItemNumber]
         == bom[i].componentNum * planQuantity as real
  {
    ExtractLastLineWins(bom, i);
  }

  lemma RequirementsSnoc(bom: seq<BomItem>, planQuantity: int, i: int)
    requires 0 <= i < |bom|
    ensures Requirements(bom[..i + 1], planQuantity)
         == Requirements(bom[..i], planQuantity)[bom[i].componentItemNumber := bom[i].componentNum * planQuantity as real]
  {
    var item, p := bom[i], planQuantity as real;
    var m := ExtractMaterials(bom[..i]);
    assert bom[..i + 1][..i] == bom[..i];
    assert bom[..i + 1][i] == item;
    assert ExtractMaterials(bom[..i + 1]) == m[item.componentItemNumber := item.componentNum];
    var k, v := item.componentItemNumber, item.componentNum;
    ScaleUpdate(m, k, v, p);
    assert k == bom[i].componentItemNumber && v * p == bom[i].componentNum * planQuantity as real;
  }

  /** Scaling every value of a map commutes with writing one entry. */
  lemma ScaleUpdate(m: map<string, real>, k: string, v: real, p: real)
    ensures Scaled(m[k := v], p) == Scaled(m, p)[k := v * p]
  {
    var lhs, rhs := Scaled(m[k := v], p), Scaled(m, p)[k := v * p];
    forall c | c in lhs ensures c in rhs && lhs[c] == rhs[c] {
      if c != k {
        assert c in m;
      }
    }
    assert forall c :: c in rhs ==> c in lhs;
  }

  /** `_calculate_requirements`: fills the requirement map line by line. */
  method CalculateRequirements(config: ModelConfig) returns (requirements: map<string, real>)
    ensures requirements == Requirements(config.bomItems, config.planQuantity)
  {
    var bom, plan := config.bomItems, config.planQuantity;
    requirements := map[];
    var i := 0;
    while i < |bom|
      invariant 0 <= i <= |bom|
      invariant requirements == Requirements(bom[..i], plan)
    {
      RequirementsSnoc(bom, plan, i);
      requirements := requirements[bom[i].componentItemNumber := bom[i].componentNum * plan as real];
      i := i + 1;
    }
    assert bom[..i] == bom;
  }

  // ---------------------------------------------------------------------
  // Exclusive materials
  // ---------------------------------------------------------------------

  /** `_allocate_exclusive`: every exclusive code gets an entry, the smaller
      of the model's own requirement and the stock (0 for an unknown code). */
  function ExclusiveAllocation(inventory: map<string, real>, exclusive: set<string>,
                               requirements: map<string, real>): map<string, real>
  {
    map c | c in exclusive :: Min(Get(requirements, c), Get(inventory, c))
  }

  // ---------------------------------------------------------------------
  // Shared materials
  // ---------------------------------------------------------------------

  datatype Side = ModelA | ModelB

  /** The two models sorted by ascending priority value with a stable sort:
      B goes first only when its priority value is strictly smaller. */
  function ServiceOrder(priorityA: int, priorityB: int): seq<Side>
  {
    if priorityB < priorityA then [ModelB, ModelA] else [ModelA, ModelB]
  }

  function PriorityOf(side: Side, priorityA: int, priorityB: int): int
  {
    if side == ModelA then priorityA else priorityB
  }

  /** The service order holds each model once, in ascending priority, and
      keeps A ahead of B when the priorities are equal. */
  lemma ServiceOrderIsStableSort(priorityA: int, priorityB: int)
    ensures var order := ServiceOrder(priorityA, priorityB);
      && multiset(order) == multiset{ModelA, ModelB}
      && PriorityOf(order[0], priorityA, priorityB) <= PriorityOf(order[1], priorityA, priorityB)
      && (PriorityOf(order[0], priorityA, priorityB) == PriorityOf(order[1], priorityA, priorityB) ==>
            order == [ModelA, ModelB])
  {
  }

  /** The requirement of `side` for the material being split. */
  function Demand(side: Side, requiredA: real, requiredB: real): real
  {
    if side == ModelA then requiredA else requiredB
  }

  /** One model's turn at a shared material: nothing is written once the
      stock is used up or when the model needs none of it; otherwise it is
      granted its requirement, capped by what remains. */
  function Grant(required: real, remaining: real): (g: Option<real>)
  {
    if remaining <= 0.0 then None
    else if required > 0.0 then Some(Min(required, remaining))
    else None
  }

  /** A grant is written exactly when stock remains and the model needs
      some; it is positive and exceeds neither the requirement nor the
      stock that remains, and equals one of them. */
  lemma GrantBounds(required: real, remaining: real)
    ensures var g := Grant(required, remaining);
      && (g.Some? <==> remaining > 0.0 && required > 0.0)
      && (g.Some? ==> 0.0 < g.value <= required && g.value <= remaining)
      && (g.Some? ==> g.value == required || g.value == remaining)
  {
  }

  /** The quantity an optional entry stands for (`.get(code, 0)`). */
  function Taken(g: Option<real>): real
  {
    match g
    case Some(q) => q
    case None => 0.0
  }

  /** The state of the turns at one shared material: the stock that
      remains and the entry each model has been written so far. */
  datatype Turns = Turns(remaining: real, entryA: Option<real>, entryB: Option<real>)

  /** One model's turn: a grant is written into that model's entry and
      taken off the remaining stock; no grant changes nothing. */
  function Turn(t: Turns, side: Side, requiredA: real, requiredB: real): Turns
  {
    var g := Grant(Demand(side, requiredA, requiredB), t.remaining);
    if g.None? then t
    else if side == ModelA then t.(remaining := t.remaining - g.value, entryA := g)
    else t.(remaining := t.remaining - g.value, entryB := g)
  }

  /** The state after the first `k` models of `order` had their turn,
      starting from the whole stock and no entries. */
  function TurnsAfter(order: seq<Side>, requiredA: real, requiredB: real, stock: real, k: nat): Turns
    requires k <= |order|
  {
    if k == 0 then Turns(stock, None, None)
    else Turn(TurnsAfter(order, requiredA, requiredB, stock, k - 1), order[k - 1], requiredA, requiredB)
  }

  /** Once the stock is used up, later turns change nothing. */
  lemma {:induction false} ExhaustedStockStays(order: seq<Side>, requiredA: real, requiredB: real,
                                              stock: real, k: nat, j: nat)
    requires k <= j <= |order|
    requires TurnsAfter(order, requiredA, requiredB, stock, k).remaining <= 0.0
    ensures TurnsAfter(order, requiredA, requiredB, stock, j) == TurnsAfter(order, requiredA, requiredB, stock, k)
  {
    if k < j {
      ExhaustedStockStays(order, requiredA, requiredB, stock, k, j - 1);
    }
  }

  function EntryOf(side: Side, t: Turns): Option<real>
  {
    if side == ModelA then t.entryA else t.entryB
  }

  /** The entry `side` ends up with for one shared material. */
  function SharedEntry(side: Side, priorityA: int, priorityB: int,
                       requiredA: real, requiredB: real, stock: real): Option<real>
  {
    EntryOf(side, TurnsAfter(ServiceOrder(priorityA, priorityB), requiredA, requiredB, stock, 2))
  }

  /** `m` with the entry for `c` written when there is one. */
  function Record(m: map<string, real>, c: string, e: Option<real>): map<string, real>
  {
    match e
    case Some(q) => m[c := q]
    case None => m
  }

  /** The shared-material map `side` ends up with: an entry only for the
      shared codes it was granted something of. */
  function SharedAllocation(side: Side, shared: set<string>,
                            requirementsA: map<string, real>, requirementsB: map<string, real>,
                            priorityA: int, priorityB: int, inventory: map<string, real>): map<string, real>
  {
    map c | c in shared && SharedEntry(side, priorityA, priorityB, Get(requirementsA, c), Get(requirementsB, c), Get(inventory, c)).Some?
      :: SharedEntry(side, priorityA, priorityB, Get(requirementsA, c), Get(requirementsB, c), Get(inventory, c)).value
  }

  lemma SharedAllocationStep(side: Side, done: set<string>, c: string,
                             requirementsA: map<string, real>, requirementsB: map<string, real>,
                             priorityA: int, priorityB: int, inventory: map<string, real>)
    requires c !in done
    ensures SharedAllocation(side, done + {c}, requirementsA, requirementsB, priorityA, priorityB, inventory)
         == Record(SharedAllocation(side, done, requirementsA, requirementsB, priorityA, priorityB, inventory), c,
                   SharedEntry(side, priorityA, priorityB, Get(requirementsA, c), Get(requirementsB, c), Get(inventory, c)))
  {
  }

  // ---------------------------------------------------------------------
  // Merging and the per-material detail
  // ---------------------------------------------------------------------

  /** `_merge_allocation`: the union of the keys, each value the sum of the
      two sides (a missing side counts as 0). */
  function Merged(base: map<string, real>, additional: map<string, real>): map<string, real>
  {
    map k | k in base.Keys + additional.Keys :: Get(base, k) + Get(additional, k)
  }

  /** The detail row of one material: shared codes carry their shared
      allocations, every other code shows none. */
  function DetailOf(inventory: map<string, real>, shared: set<string>,
                    sharedA: map<string, real>, sharedB: map<string, real>, c: string): MaterialDetail
  {
    if c in shared then MaterialDetail(Get(inventory, c), Get(sharedA, c), Get(sharedB, c))
    else MaterialDetail(Get(inventory, c), 0.0, 0.0)
  }

  /** `_calculate_materials_detail`: one row per inventory code and per
      shared code. */
  function MaterialsDetail(inventory: map<string, real>, shared: set<string>,
                           sharedA: map<string, real>, sharedB: map<string, real>): map<string, MaterialDetail>
  {
    map c | c in inventory.Keys + shared :: DetailOf(inventory, shared, sharedA, sharedB, c)
  }

  // ---------------------------------------------------------------------
  // The whole run
  // ---------------------------------------------------------------------

  /** What `allocate` returns for a snapshot and two configurations. */
  function AllocationOf(inventory: map<string, real>, configA: ModelConfig, configB: ModelConfig): AllocationOutcome
  {
    var materialsA, materialsB := ExtractMaterials(configA.bomItems), ExtractMaterials(configB.bomItems);
    var shared := FindSharedMaterials(materialsA, materialsB);
    var exclusiveA := FindExclusiveMaterials(materialsA, materialsB);
    var exclusiveB := FindExclusiveMaterials(materialsB, materialsA);
    var requirementsA := Requirements(configA.bomItems, configA.planQuantity);
    var requirementsB := Requirements(configB.bomItems, configB.planQuantity);
    var sharedA := SharedAllocation(ModelA, shared, requirementsA, requirementsB, configA.priority, configB.priority, inventory);
    var sharedB := SharedAllocation(ModelB, shared, requirementsA, requirementsB, configA.priority, configB.priority, inventory);
    AllocationOutcome(
      Merged(ExclusiveAllocation(inventory, exclusiveA, requirementsA), sharedA),
      Merged(ExclusiveAllocation(inventory, exclusiveB, requirementsB), sharedB),
      MaterialsDetail(inventory, shared, sharedA, sharedB))
  }

  // ---------------------------------------------------------------------
  // Properties of one shared material
  // ---------------------------------------------------------------------

  /** The model with the lower priority value (A on a tie) is served first
      from the whole stock; the other only from what is left. */
  lemma SharedServesInPriorityOrder(priorityA: int, priorityB: int, requiredA: real, requiredB: real, stock: real)
    ensures var entryA := SharedEntry(ModelA, priorityA, priorityB, requiredA, requiredB, stock);
      var entryB := SharedEntry(ModelB, priorityA, priorityB, requiredA, requiredB, stock);
      && (priorityA <= priorityB ==>
            entryA == Grant(requiredA, stock) && entryB == Grant(requiredB, stock - Taken(entryA)))
      && (priorityB < priorityA ==>
            entryB == Grant(requiredB, stock) && entryA == Grant(requiredA, stock - Taken(entryB)))
  {
    var order := ServiceOrder(priorityA, priorityB);
    var t0 := TurnsAfter(order, requiredA, requiredB, stock, 0);
    var t1 := TurnsAfter(order, requiredA, requiredB, stock, 1);
    var t2 := TurnsAfter(order, requiredA, requiredB, stock, 2);
    assert t0 == Turns(stock, None, None);
    assert t1 == Turn(t0, order[0], requiredA, requiredB);
    assert t2 == Turn(t1, order[1], requiredA, requiredB);
  }

  /** Conservation at one shared material: the two grants together never
      exceed the stock (nothing is granted from a stock that is not
      positive), each is positive and at most its model's requirement, and
      a model that needs none of the material gets no entry. */
  lemma {:induction false} SharedConservation(priorityA: int, priorityB: int, requiredA: real, requiredB: real, stock: real)
    ensures var entryA := SharedEntry(ModelA, priorityA, priorityB, requiredA, requiredB, stock);
      var entryB := SharedEntry(ModelB, priorityA, priorityB, requiredA, requiredB, stock);
      && (stock <= 0.0 ==> entryA.None? && entryB.None?)
      && (stock >= 0.0 ==> Taken(entryA) + Taken(entryB) <= stock)
      && (requiredA <= 0.0 ==> entryA.None?)
      && (requiredB <= 0.0 ==> entryB.None?)
      && (entryA.Some? ==> 0.0 < entryA.value <= requiredA)
      && (entryB.Some? ==> 0.0 < entryB.value <= requiredB)
  {
    SharedServesInPriorityOrder(priorityA, priorityB, requiredA, requiredB, stock);
    var entryA := SharedEntry(ModelA, priorityA, priorityB, requiredA, requiredB, stock);
    var entryB := SharedEntry(ModelB, priorityA, priorityB, requiredA, requiredB, stock);
    if priorityA <= priorityB {
      GrantBounds(requiredA, stock);
      GrantBounds(requiredB, stock - Taken(entryA));
    } else {
      GrantBounds(requiredB, stock);
      GrantBounds(requiredA, stock - Taken(entryB));
    }
  }

  /** Without contention (enough stock for both), both models get their
      whole positive requirement, whatever the priorities. */
  lemma SharedWithoutContention(priorityA: int, priorityB: int, requiredA: real, requiredB: real, stock: real)
    requires requiredA > 0.0 && requiredB > 0.0 && stock >= requiredA + requiredB
    ensures SharedEntry(ModelA, priorityA, priorityB, requiredA, requiredB, stock) == Some(requiredA)
    ensures SharedEntry(ModelB, priorityA, priorityB, requiredA, requiredB, stock) == Some(requiredB)
  {
    SharedServesInPriorityOrder(priorityA, priorityB, requiredA, requiredB, stock);
  }

  /** What a grant takes grows with the stock it is taken from. */
  lemma GrantMonotone(required: real, remaining: real, remaining': real)
    requires remaining <= remaining'
    ensures Taken(Grant(required, remaining)) <= Taken(Grant(required, remaining'))
  {
  }

  /** What the second model is left grows with the stock. */
  lemma LeftoverMonotone(required: real, stock: real, stock': real)
    requires stock <= stock'
    ensures Taken(Grant(required, stock)) <= Taken(Grant(required, stock'))
    ensures var left, left' := stock - Taken(Grant(required, stock)), stock' - Taken(Grant(required, stock'));
      left <= 0.0 || left <= left'
  {
  }

  /** More stock of a shared material never gives either model less. */
  lemma SharedMonotoneInStock(priorityA: int, priorityB: int, requiredA: real, requiredB: real,
                              stock: real, stock': real)
    requires stock <= stock'
    ensures Taken(SharedEntry(ModelA, priorityA, priorityB, requiredA, requiredB, stock))
         <= Taken(SharedEntry(ModelA, priorityA, priorityB, requiredA, requiredB, stock'))
    ensures Taken(SharedEntry(ModelB, priorityA, priorityB, requiredA, requiredB, stock))
         <= Taken(SharedEntry(ModelB, priorityA, priorityB, requiredA, requiredB, stock'))
  {
    SharedServesInPriorityOrder(priorityA, priorityB, requiredA, requiredB, stock);
    SharedServesInPriorityOrder(priorityA, priorityB, requiredA, requiredB, stock');
    var first, second := if priorityA <= priorityB then requiredA else requiredB,
                         if priorityA <= priorityB then requiredB else requiredA;
    LeftoverMonotone(first, stock, stock');
    var left, left' := stock - Taken(Grant(first, stock)), stock' - Taken(Grant(first, stock'));
    if left > 0.0 {
      GrantMonotone(second, left, left');
    }
  }

  // ---------------------------------------------------------------------
  // Properties of a whole run
  // ---------------------------------------------------------------------

  /** The entries of `m` whose keys are not in `rest`. */
  function Outside(m: map<string, real>, rest: set<string>): map<string, real>
  {
    map k | k in m && k !in rest :: m[k]
  }

  /** Adding one more entry of `additional` to a partial merge. */
  lemma MergedStep(base: map<string, real>, additional: map<string, real>, rest: set<string>, c: string)
    requires c in rest && c in additional
    ensures var before := Merged(base, Outside(additional, rest));
      Merged(base, Outside(additional, rest - {c})) == before[c := Get(before, c) + additional[c]]
  {
    var before := Merged(base, Outside(additional, rest));
    var after := Merged(base, Outside(additional, rest - {c}));
    assert after.Keys == before.Keys + {c};
  }

  /** A key missing from either side of a merge counts as 0. */
  lemma MergedGet(base: map<string, real>, additional: map<string, real>, k: string)
    ensures Get(Merged(base, additional), k) == Get(base, k) + Get(additional, k)
  {
  }

  /** What `allocate` gives each code. An exclusive code always gets an
      entry: the smaller of its model's requirement and the stock, however
      the other model is configured. A shared code gets what the turns in
      priority order grant, and no entry when nothing is granted. A code a
      model does not use never appears in its map. The detail has a row for
      every inventory code and every shared code; only shared rows show
      allocations. */
  lemma AllocationPerCode(inventory: map<string, real>, configA: ModelConfig, configB: ModelConfig, c: string)
    ensures var out := AllocationOf(inventory, configA, configB);
      var codesA, codesB := Codes(configA.bomItems), Codes(configB.bomItems);
      var requiredA := Get(Requirements(configA.bomItems, configA.planQuantity), c);
      var requiredB := Get(Requirements(configB.bomItems, configB.planQuantity), c);
      var stock := Get(inventory, c);
      var entryA := SharedEntry(ModelA, configA.priority, configB.priority, requiredA, requiredB, stock);
      var entryB := SharedEntry(ModelB, configA.priority, configB.priority, requiredA, requiredB, stock);
      && (c !in codesA ==> c !in out.modelA)
      && (c !in codesB ==> c !in out.modelB)
      && (c in codesA && c !in codesB ==> c in out.modelA && out.modelA[c] == Min(requiredA, stock))
      && (c in codesB && c !in codesA ==> c in out.modelB && out.modelB[c] == Min(requiredB, stock))
      && (c in codesA && c in codesB ==>
            && (c in out.modelA <==> entryA.Some?) && Get(out.modelA, c) == Taken(entryA)
            && (c in out.modelB <==> entryB.Some?) && Get(out.modelB, c) == Taken(entryB))
      && (c in out.materials <==> c in inventory || (c in codesA && c in codesB))
      && (c in out.materials ==>
            out.materials[c] == MaterialDetail(stock, if c in codesB then Get(out.modelA, c) else 0.0,
                                                      if c in codesA then Get(out.modelB, c) else 0.0))
  {
    var out := AllocationOf(inventory, configA, configB);
    var materialsA, materialsB := ExtractMaterials(configA.bomItems), ExtractMaterials(configB.bomItems);
    var shared := FindSharedMaterials(materialsA, materialsB);
    var requirementsA := Requirements(configA.bomItems, configA.planQuantity);
    var requirementsB := Requirements(configB.bomItems, configB.planQuantity);
    var exclusiveA := ExclusiveAllocation(inventory, FindExclusiveMaterials(materialsA, materialsB), requirementsA);
    var exclusiveB := ExclusiveAllocation(inventory, FindExclusiveMaterials(materialsB, materialsA), requirementsB);
    var sharedA := SharedAllocation(ModelA, shared, requirementsA, requirementsB, configA.priority, configB.priority, inventory);
    var sharedB := SharedAllocation(ModelB, shared, requirementsA, requirementsB, configA.priority, configB.priority, inventory);
    assert out.modelA == Merged(exclusiveA, sharedA);
    assert out.modelB == Merged(exclusiveB, sharedB);
    assert out.materials == MaterialsDetail(inventory, shared, sharedA, sharedB);
    MergedGet(exclusiveA, sharedA, c);
    MergedGet(exclusiveB, sharedB, c);
  }

  /** No model is ever granted more of a code than it requires. */
  lemma AllocationNeverOverServes(inventory: map<string, real>, configA: ModelConfig, configB: ModelConfig)
    ensures var out := AllocationOf(inventory, configA, configB);
      && out.modelA.Keys <= Codes(configA.bomItems)
      && out.modelB.Keys <= Codes(configB.bomItems)
      && (forall c :: c in out.modelA ==> out.modelA[c] <= Get(Requirements(configA.bomItems, configA.planQuantity), c))
      && (forall c :: c in out.modelB ==> out.modelB[c] <= Get(Requirements(configB.bomItems, configB.planQuantity), c))
  {
    var out := AllocationOf(inventory, configA, configB);
    forall c
      ensures c in out.modelA ==>
        c in Codes(configA.bomItems) && out.modelA[c] <= Get(Requirements(configA.bomItems, configA.planQuantity), c)
      ensures c in out.modelB ==>
        c in Codes(configB.bomItems) && out.modelB[c] <= Get(Requirements(configB.bomItems, configB.planQuantity), c)
    {
      AllocationPerCode(inventory, configA, configB, c);
      var requiredA := Get(Requirements(configA.bomItems, configA.planQuantity), c);
      var requiredB := Get(Requirements(configB.bomItems, configB.planQuantity), c);
      SharedConservation(configA.priority, configB.priority, requiredA, requiredB, Get(inventory, c));
    }
  }

  /** Conservation: a shared code with non-negative stock is never
      over-allocated, and its detail row shows exactly the two grants, so
      the remaining stock it displays is not negative. */
  lemma SharedMaterialConserved(inventory: map<string, real>, configA: ModelConfig, configB: ModelConfig, c: string)
    requires c in Codes(configA.bomItems) && c in Codes(configB.bomItems)
    requires Get(inventory, c) >= 0.0
    ensures var out := AllocationOf(inventory, configA, configB);
      && Get(out.modelA, c) + Get(out.modelB, c) <= Get(inventory, c)
      && c in out.materials
      && out.materials[c] == MaterialDetail(Get(inventory, c), Get(out.modelA, c), Get(out.modelB, c))
  {
    AllocationPerCode(inventory, configA, configB, c);
    var requiredA := Get(Requirements(configA.bomItems, configA.planQuantity), c);
    var requiredB := Get(Requirements(configB.bomItems, configB.planQuantity), c);
    SharedConservation(configA.priority, configB.priority, requiredA, requiredB, Get(inventory, c));
  }

  /** More stock of any code never gives either model less of any code. */
  lemma AllocationMonotoneInInventory(inventory: map<string, real>, inventory': map<string, real>,
                                      configA: ModelConfig, configB: ModelConfig)
    requires forall c :: Get(inventory, c) <= Get(inventory', c)
    ensures var out, out' := AllocationOf(inventory, configA, configB), AllocationOf(inventory', configA, configB);
      && (forall c :: Get(out.modelA, c) <= Get(out'.modelA, c))
      && (forall c :: Get(out.modelB, c) <= Get(out'.modelB, c))
  {
    var out, out' := AllocationOf(inventory, configA, configB), AllocationOf(inventory', configA, configB);
    forall c ensures Get(out.modelA, c) <= Get(out'.modelA, c) && Get(out.modelB, c) <= Get(out'.modelB, c) {
      AllocationMonotoneAt(inventory, inventory', configA, configB, c);
    }
  }

  /** The monotonicity of `AllocationMonotoneInInventory` for one code. */
  lemma AllocationMonotoneAt(inventory: map<string, real>, inventory': map<string, real>,
                             configA: ModelConfig, configB: ModelConfig, c: string)
    requires Get(inventory, c) <= Get(inventory', c)
    ensures var out, out' := AllocationOf(inventory, configA, configB), AllocationOf(inventory', configA, configB);
      Get(out.modelA, c) <= Get(out'.modelA, c) && Get(out.modelB, c) <= Get(out'.modelB, c)
  {
    AllocationPerCode(inventory, configA, configB, c);
    AllocationPerCode(inventory', configA, configB, c);
    var requiredA := Get(Requirements(configA.bomItems, configA.planQuantity), c);
    var requiredB := Get(Requirements(configB.bomItems, configB.planQuantity), c);
    SharedMonotoneInStock(configA.priority, configB.priority, requiredA, requiredB, Get(inventory, c), Get(inventory', c));
  }

  /** With no stock at all (the snapshot of a failed load) and no negative
      requirement, every model is granted nothing of anything. */
  lemma EmptyInventoryGrantsNothing(configA: ModelConfig, configB: ModelConfig)
    requires NonNegative(Requirements(configA.bomItems, configA.planQuantity))
    requires NonNegative(Requirements(configB.bomItems, configB.planQuantity))
    ensures var out := AllocationOf(map[], configA, configB);
      && (forall c :: Get(out.modelA, c) == 0.0)
      && (forall c :: Get(out.modelB, c) == 0.0)
      && out.materials.Keys == Codes(configA.bomItems) * Codes(configB.bomItems)
  {
    var out := AllocationOf(map[], configA, configB);
    forall c ensures Get(out.modelA, c) == 0.0 && Get(out.modelB, c) == 0.0
                  && (c in out.materials <==> c in Codes(configA.bomItems) * Codes(configB.bomItems))
    {
      AllocationPerCode(map[], configA, configB, c);
      var requiredA := Get(Requirements(configA.bomItems, configA.planQuantity), c);
      var requiredB := Get(Requirements(configB.bomItems, configB.planQuantity), c);
      SharedConservation(configA.priority, configB.priority, requiredA, requiredB, 0.0);
    }
  }

  /** Non-negative stock and requirements give non-negative grants. */
  lemma AllocationNonNegative(inventory: map<string, real>, configA: ModelConfig, configB: ModelConfig)
    requires NonNegative(inventory)
    requires NonNegative(Requirements(configA.bomItems, configA.planQuantity))
    requires NonNegative(Requirements(configB.bomItems, configB.planQuantity))
    ensures var out := AllocationOf(inventory, configA, configB);
      NonNegative(out.modelA) && NonNegative(out.modelB)
  {
    var out := AllocationOf(inventory, configA, configB);
    forall c ensures c in out.modelA ==> out.modelA[c] >= 0.0
                  ensures c in out.modelB ==> out.modelB[c] >= 0.0
    {
      AllocationPerCode(inventory, configA, configB, c);
      var requiredA := Get(Requirements(configA.bomItems, configA.planQuantity), c);
      var requiredB := Get(Requirements(configB.bomItems, configB.planQuantity), c);
      assert Get(inventory, c) >= 0.0 && requiredA >= 0.0 && requiredB >= 0.0;
      SharedConservation(configA.priority, configB.priority, requiredA, requiredB, Get(inventory, c));
    }
  }

  /** With non-negative per-unit quantities and a non-negative plan, every
      requirement is non-negative, whichever line of a repeated code wins. */
  lemma RequirementsNonNegative(bom: seq<BomItem>, planQuantity: int)
    requires planQuantity >= 0
    requires forall i :: 0 <= i < |bom| ==> bom[i].componentNum >= 0.0
    ensures NonNegative(Requirements(bom, planQuantity))
  {
    var requirements := Requirements(bom, planQuantity);
    forall c | c in requirements ensures requirements[c] >= 0.0 {
      assert c in ExtractMaterials(bom).Keys;
      var i := LastLineOf(bom, c);
      RequirementOfLastLine(bom, planQuantity, i);
      NonNegativeProduct(bom[i].componentNum, planQuantity as real);
    }
  }

  lemma NonNegativeProduct(x: real, y: real)
    requires x >= 0.0 && y >= 0.0
    ensures x * y >= 0.0
  {
  }

  // ---------------------------------------------------------------------
  // The allocator object
  // ---------------------------------------------------------------------

  class InventoryAllocator {
    /** The snapshot: material code to stock on hand. */
    var inventoryData: map<string, real>

    /** Starts from an empty snapshot and loads it once; a failing read
        leaves it empty rather than failing construction. */
    constructor(read: InventoryRead)
      ensures inventoryData == LoadedInventory(read, map[])
    {
      inventoryData := map[];
      new;
      LoadInventoryData(read);
    }

    /** `load_inventory_data`. */
    method LoadInventoryData(read: InventoryRead)
      modifies this
      ensures inventoryData == LoadedInventory(read, old(inventoryData))
    {
      match read
      case ReadFailed =>
        inventoryData := map[];
      case Rows(rows) =>
        if |rows| > 0 {
          inventoryData := InventoryFromRows(rows);
        }
    }

    /** `_allocate_exclusive`, one exclusive code at a time. */
    method AllocateExclusive(exclusive: set<string>, requirements: map<string, real>)
      returns (allocation: map<string, real>)
      ensures allocation == ExclusiveAllocation(inventoryData, exclusive, requirements)
    {
      allocation := map[];
      var rest := exclusive;
      while rest != {}
        invariant rest <= exclusive
        invariant allocation == ExclusiveAllocation(inventoryData, exclusive - rest, requirements)
        decreases rest
      {
        var c :| c in rest;
        var requiredQty := Get(requirements, c);
        var availableQty := Get(inventoryData, c);
        allocation := allocation[c := Min(requiredQty, availableQty)];
        rest := rest - {c};
      }
    }

    /** `_allocate_shared_materials`: for each shared code, the models take
        turns in priority order, each capped by its requirement and by the
        stock that remains; the turns stop once nothing remains. */
    method AllocateSharedMaterials(shared: set<string>,
                                   requirementsA: map<string, real>, requirementsB: map<string, real>,
                                   priorityA: int, priorityB: int)
      returns (allocationA: map<string, real>, allocationB: map<string, real>)
      ensures allocationA == SharedAllocation(ModelA, shared, requirementsA, requirementsB, priorityA, priorityB, inventoryData)
      ensures allocationB == SharedAllocation(ModelB, shared, requirementsA, requirementsB, priorityA, priorityB, inventoryData)
    {
      allocationA, allocationB := map[], map[];
      var models := ServiceOrder(priorityA, priorityB);
      var rest := shared;
      while rest != {}
        invariant rest <= shared
        invariant allocationA == SharedAllocation(ModelA, shared - rest, requirementsA, requirementsB, priorityA, priorityB, inventoryData)
        invariant allocationB == SharedAllocation(ModelB, shared - rest, requirementsA, requirementsB, priorityA, priorityB, inventoryData)
        decreases rest
      {
        var c :| c in rest;
        allocationA, allocationB := ServeInOrder(models, c, Get(requirementsA, c), Get(requirementsB, c),
                                                 allocationA, allocationB);
        SharedAllocationStep(ModelA, shared - rest, c, requirementsA, requirementsB, priorityA, priorityB, inventoryData);
        SharedAllocationStep(ModelB, shared - rest, c, requirementsA, requirementsB, priorityA, priorityB, inventoryData);
        assert shared - (rest - {c}) == (shared - rest) + {c};
        rest := rest - {c};
      }
    }

    /** The inner loop of `_allocate_shared_materials` for one shared code:
        the models in `models` take their turns, writing their grants into
        their own maps, until the stock of the code is used up. */
    method ServeInOrder(models: seq<Side>, c: string, requiredA: real, requiredB: real,
                        allocationA: map<string, real>, allocationB: map<string, real>)
      returns (newA: map<string, real>, newB: map<string, real>)
      ensures var t := TurnsAfter(models, requiredA, requiredB, Get(inventoryData, c), |models|);
        newA == Record(allocationA, c, t.entryA) && newB == Record(allocationB, c, t.entryB)
    {
      newA, newB := allocationA, allocationB;
      var totalInventory := Get(inventoryData, c);
      var remaining := totalInventory;
      ghost var entryA, entryB := None, None;
      var k := 0;
      while k < |models|
        invariant 0 <= k <= |models|
        invariant Turns(remaining, entryA, entryB) == TurnsAfter(models, requiredA, requiredB, totalInventory, k)
        invariant newA == Record(allocationA, c, entryA)
        invariant newB == Record(allocationB, c, entryB)
      {
        if remaining <= 0.0 {
          ExhaustedStockStays(models, requiredA, requiredB, totalInventory, k, |models|);
          break;
        }
        var requiredQty := if models[k] == ModelA then requiredA else requiredB;
        if requiredQty > 0.0 {
          var allocatedQty := Min(requiredQty, remaining);
          if models[k] == ModelA {
            newA := newA[c := allocatedQty];
            entryA := Some(allocatedQty);
          } else {
            newB := newB[c := allocatedQty];
            entryB := Some(allocatedQty);
          }
          remaining := remaining - allocatedQty;
        }
        k := k + 1;
      }
    }

    /** `_merge_allocation`: starts from a copy of `base` and adds each entry
        of `additional` to it. */
    method MergeAllocation(base: map<string, real>, additional: map<string, real>)
      returns (merged: map<string, real>)
      ensures merged == Merged(base, additional)
    {
      merged := base;
      var rest := additional.Keys;
      while rest != {}
        invariant rest <= additional.Keys
        invariant merged == Merged(base, Outside(additional, rest))
        decreases rest
      {
        var c :| c in rest;
        MergedStep(base, additional, rest, c);
        if c in merged {
          merged := merged[c := merged[c] + additional[c]];
        } else {
          merged := merged[c := additional[c]];
        }
        rest := rest - {c};
      }
      assert additional == Outside(additional, rest);
    }

    /** `_calculate_materials_detail`: a row with no allocation for every
        inventory code that is not shared, then a row with the shared
        allocations for every shared code. */
    method CalculateMaterialsDetail(shared: set<string>, sharedA: map<string, real>, sharedB: map<string, real>)
      returns (detail: map<string, MaterialDetail>)
      ensures detail == MaterialsDetail(inventoryData, shared, sharedA, sharedB)
    {
      detail := map[];
      var rest := inventoryData.Keys;
      while rest != {}
        invariant rest <= inventoryData.Keys
        invariant detail == map c | c in inventoryData.Keys - rest - shared :: DetailOf(inventoryData, shared, sharedA, sharedB, c)
        decreases rest
      {
        var c :| c in rest;
        if c !in shared {
          detail := detail[c := MaterialDetail(inventoryData[c], 0.0, 0.0)];
        }
        rest := rest - {c};
      }
      var left := shared;
      while left != {}
        invariant left <= shared
        invariant detail == map c | c in (inventoryData.Keys - shared) + (shared - left) :: DetailOf(inventoryData, shared, sharedA, sharedB, c)
        decreases left
      {
        var c :| c in left;
        detail := detail[c := MaterialDetail(Get(inventoryData, c), Get(sharedA, c), Get(sharedB, c))];
        left := left - {c};
      }
      assert (inventoryData.Keys - shared) + shared == inventoryData.Keys + shared;
    }

    /** `allocate`: exclusive materials first, then shared materials by
        priority, then the merged per-model maps and the per-material
        detail. The snapshot is only read. */
    method Allocate(configA: ModelConfig, configB: ModelConfig) returns (outcome: AllocationOutcome)
      ensures outcome == AllocationOf(inventoryData, configA, configB)
    {
      var materialsA := ExtractMaterials(configA.bomItems);
      var materialsB := ExtractMaterials(configB.bomItems);
      var shared := FindSharedMaterials(materialsA, materialsB);
      var exclusiveA := FindExclusiveMaterials(materialsA, materialsB);
      var exclusiveB := FindExclusiveMaterials(materialsB, materialsA);

      var requirementsA := CalculateRequirements(configA);
      var requirementsB := CalculateRequirements(configB);

      var allocatedExclusiveA := AllocateExclusive(exclusiveA, requirementsA);
      var allocatedExclusiveB := AllocateExclusive(exclusiveB, requirementsB);
      var sharedA, sharedB := AllocateSharedMaterials(shared, requirementsA, requirementsB, configA.priority, configB.priority);

      var finalA := MergeAllocation(allocatedExclusiveA, sharedA);
      var finalB := MergeAllocation(allocatedExclusiveB, sharedB);
      var materials := CalculateMaterialsDetail(shared, sharedA, sharedB);
      outcome := AllocationOutcome(finalA, finalB, materials);
    }
  }
}
