/** The records exchanged between the allocator, the satisfaction
    calculator and the result display (database/models.py). Quantities
    are exact reals; plan quantities and priorities are integers. */
module Domain {
  import opened Common

  /** One line of a bill of materials: `componentNum` units of the
      component are needed per unit of the parent model. */
  datatype BomItem = BomItem(
    parentItemNumber: string,
    componentItemNumber: string,
    componentDescription: string,
    componentNum: real)

  /** One model's order: what to build, how many, and how urgently
      (a lower priority value is served first). */
  datatype ModelConfig = ModelConfig(
    modelCode: string,
    modelName: string,
    planQuantity: int,
    priority: int,
    bomItems: seq<BomItem>)

  /** One row of the inventory query: a material code and its stock,
      where `None` is a NULL reading. */
  datatype InventoryRow = InventoryRow(matnr: string, clabs: Option<real>)

  /** What the inventory query produced: either it raised, or it returned
      a (possibly empty) list of rows. A `None` result is an empty list. */
  datatype InventoryRead = ReadFailed | Rows(rows: seq<InventoryRow>)

  /** Per-material detail shown in the overview: the stock on hand and
      what each model was granted of it. */
  datatype MaterialDetail = MaterialDetail(
    totalInventory: real,
    allocatedA: real,
    allocatedB: real)

  /** The dictionary returned by `allocate`. */
  datatype AllocationOutcome = AllocationOutcome(
    modelA: map<string, real>,
    modelB: map<string, real>,
    materials: map<string, MaterialDetail>)

  /** One model's satisfaction result. */
  datatype AllocationResult = AllocationResult(
    modelCode: string,
    modelName: string,
    planQuantity: int,
    allocatedQuantity: int,
    satisfactionRate: real,
    allocatedMaterials: map<string, real>,
    shortageMaterials: map<string, real>,
    bomItems: seq<BomItem>)

  /** The dictionary returned by `calculate_satisfaction`. */
  datatype SatisfactionResults = SatisfactionResults(
    modelA: AllocationResult,
    modelB: AllocationResult,
    materials: map<string, MaterialDetail>)

  /** The set of component codes a bill of materials mentions. */
  function Codes(bom: seq<BomItem>): set<string>
  {
    set i | 0 <= i < |bom| :: bom[i].componentItemNumber
  }

  /** Line `i` is the last line of `bom` with its component code. */
  predicate IsLastLineOf(bom: seq<BomItem>, i: int)
  {
    0 <= i < |bom| &&
    forall j :: i < j < |bom| ==> bom[j].componentItemNumber != bom[i].componentItemNumber
  }

  /** The last line of `bom` naming code `c`: the line whose quantity a
      dictionary filled line by line ends up holding for `c`. */
  function LastLineOf(bom: seq<BomItem>, c: string): (i: int)
    requires c in Codes(bom)
    ensures IsLastLineOf(bom, i) && bom[i].componentItemNumber == c
    decreases |bom|
  {
    var n := |bom| - 1;
    if bom[n].componentItemNumber == c then n
    else
      assert c in Codes(bom[..n]) by {
        var k :| 0 <= k < |bom| && bom[k].componentItemNumber == c;
        assert bom[..n][k] == bom[k];
      }
      var i := LastLineOf(bom[..n], c);
      assert forall j :: i < j < n ==> bom[..n][j] == bom[j];
      i
  }

  /** No component code appears on two lines. */
  predicate DistinctCodes(bom: seq<BomItem>)
  {
    forall i, j :: 0 <= i < j < |bom| ==> bom[i].componentItemNumber != bom[j].componentItemNumber
  }

  lemma CodesSnoc(bom: seq<BomItem>, item: BomItem)
    ensures Codes(bom + [item]) == Codes(bom) + {item.componentItemNumber}
  {
    var s := bom + [item];
    forall c | c in Codes(s) ensures c in Codes(bom) + {item.componentItemNumber} {
      var i :| 0 <= i < |s| && s[i].componentItemNumber == c;
      if i < |bom| { assert bom[i] == s[i]; }
    }
    forall c | c in Codes(bom) ensures c in Codes(s) {
      var i :| 0 <= i < |bom| && bom[i].componentItemNumber == c;
      assert s[i] == bom[i];
    }
    assert s[|bom|] == item;
  }
}
