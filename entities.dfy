/**
 * The persistent entities: products, raw materials, the recipe lines that
 * say how much of a raw material one unit of a product consumes, and
 * production orders with their items. Each `Valid...` predicate collects the
 * Bean Validation annotations of one entity class; Hibernate checks them
 * whenever the entity is persisted or flushed.
 */
module Entities {

  /** A business code such as "P001" or "RM002". */
  type Code = string

  /**
   * A `BigDecimal` column of scale 2, held as its unscaled value: the
   * number of hundredths.
   */
  type Amount = int

  /**
   * `@NotBlank`: not empty after Java's `trim()`, which strips every
   * character up to and including the space.
   */
  predicate NotBlank(s: string)
  {
    exists i :: 0 <= i < |s| && s[i] > ' '
  }

  datatype Product = Product(code: Code, name: string, value: Amount)

  predicate ValidProduct(p: Product)
  {
    NotBlank(p.code) && NotBlank(p.name) && p.value > 0
  }

  /** A table looked up by code: every product is stored under its own code. */
  predicate KeyedProducts(ps: map<Code, Product>)
  {
    forall c :: c in ps ==> ps[c].code == c
  }

  datatype RawMaterial = RawMaterial(code: Code, name: string, stockQuantity: Amount)

  predicate ValidRawMaterial(r: RawMaterial)
  {
    NotBlank(r.code) && NotBlank(r.name) && r.stockQuantity >= 0
  }

  predicate KeyedRawMaterials(rs: map<Code, RawMaterial>)
  {
    forall c :: c in rs ==> rs[c].code == c
  }

  /**
   * One row of PRODUCT_RAW_MATERIALS: making one unit of `productCode`
   * consumes `quantity` of `rawMaterialCode`.
   */
  datatype RecipeLine = RecipeLine(productCode: Code, rawMaterialCode: Code, quantity: Amount)

  predicate ValidRecipeLine(l: RecipeLine)
  {
    l.quantity > 0
  }

  /**
   * The line that is inserted for a product, a raw material and a
   * quantity: the `@PrePersist` hook copies both codes from the linked
   * entities.
   */
  function NewRecipeLine(product: Product, rawMaterial: RawMaterial, quantity: Amount): (l: RecipeLine)
    ensures l.productCode == product.code && l.rawMaterialCode == rawMaterial.code
    ensures l.quantity == quantity
  {
    RecipeLine(product.code, rawMaterial.code, quantity)
  }

  /** The only change a recipe line admits after insert: a new quantity. */
  function WithQuantity(l: RecipeLine, quantity: Amount): (r: RecipeLine)
    ensures r.productCode == l.productCode && r.rawMaterialCode == l.rawMaterialCode
    ensures r.quantity == quantity
  {
    l.(quantity := quantity)
  }

  /** The unique constraint on (product_code, raw_material_code). */
  predicate UniquePairs(lines: seq<RecipeLine>)
  {
    forall i, j :: 0 <= i < j < |lines| ==>
      lines[i].productCode != lines[j].productCode
      || lines[i].rawMaterialCode != lines[j].rawMaterialCode
  }

  /** Whether some line links the given pair. */
  predicate HasPair(lines: seq<RecipeLine>, productCode: Code, rawMaterialCode: Code)
  {
    exists i :: 0 <= i < |lines| && lines[i].productCode == productCode
      && lines[i].rawMaterialCode == rawMaterialCode
  }

  /** The lines of one product, in table order. */
  function LinesOf(lines: seq<RecipeLine>, productCode: Code): (r: seq<RecipeLine>)
    ensures |r| <= |lines|
    ensures forall l :: l in r ==> l in lines && l.productCode == productCode
    ensures forall l :: l in lines && l.productCode == productCode ==> l in r
  {
    if lines == [] then []
    else
      var head := if lines[0].productCode == productCode then [lines[0]] else [];
      head + LinesOf(lines[1..], productCode)
  }

  /** No two lines name the same raw material. */
  predicate DistinctMaterials(lines: seq<RecipeLine>)
  {
    forall i, j :: 0 <= i < j < |lines| ==> lines[i].rawMaterialCode != lines[j].rawMaterialCode
  }

  /** Under the unique constraint one product's lines name distinct raw materials. */
  lemma {:induction false} LinesOfDistinctMaterials(lines: seq<RecipeLine>, productCode: Code)
    requires UniquePairs(lines)
    ensures DistinctMaterials(LinesOf(lines, productCode))
    decreases |lines|
  {
    if lines != [] {
      var tail := lines[1..];
      assert UniquePairs(tail) by {
        forall i, j | 0 <= i < j < |tail|
          ensures tail[i].productCode != tail[j].productCode
            || tail[i].rawMaterialCode != tail[j].rawMaterialCode
        {
          assert tail[i] == lines[i + 1] && tail[j] == lines[j + 1];
        }
      }
      LinesOfDistinctMaterials(tail, productCode);
      var rest := LinesOf(tail, productCode);
      if lines[0].productCode == productCode {
        var r := [lines[0]] + rest;
        forall i, j | 0 <= i < j < |r|
          ensures r[i].rawMaterialCode != r[j].rawMaterialCode
        {
          if i == 0 {
            assert r[j] in tail;
            var k :| 0 <= k < |tail| && tail[k] == r[j];
            assert lines[k + 1] == r[j];
          } else {
            assert r[i] == rest[i - 1] && r[j] == rest[j - 1];
          }
        }
      }
    }
  }

  /** A line whose pair is absent can be appended without breaking uniqueness. */
  lemma AppendKeepsUniquePairs(lines: seq<RecipeLine>, l: RecipeLine)
    requires UniquePairs(lines)
    requires !HasPair(lines, l.productCode, l.rawMaterialCode)
    ensures UniquePairs(lines + [l])
  {
    var r := lines + [l];
    forall i, j | 0 <= i < j < |r|
      ensures r[i].productCode != r[j].productCode || r[i].rawMaterialCode != r[j].rawMaterialCode
    {
      if j == |lines| {
        assert r[i] == lines[i];
      } else {
        assert r[i] == lines[i] && r[j] == lines[j];
      }
    }
  }

  datatype ProductionStatus = PENDING | CONFIRMED

  /**
   * A production item. It only exists inside the item list of its
   * production, so the link to the parent is never missing.
   */
  datatype ProductionItem = ProductionItem(productCode: Code, quantity: int)

  predicate ValidProductionItem(item: ProductionItem)
  {
    NotBlank(item.productCode) && item.quantity > 0
  }

  /**
   * A production order. `createdAt` is the instant of creation in the
   * clock's own units; items are owned by the order and go with it.
   */
  datatype Production = Production(status: ProductionStatus, createdAt: int, items: seq<ProductionItem>)

  /** `Production()` as constructed: pending, stamped, with no items yet. */
  function NewProduction(now: int): (p: Production)
    ensures p.status == PENDING && p.createdAt == now && p.items == []
  {
    Production(PENDING, now, [])
  }

  /** The Kotlin default of an item before its fields are assigned. */
  const DefaultItemQuantity: int := 0

  /** An item still holding the default quantity would be rejected at persist. */
  lemma DefaultQuantityRejected(code: Code)
    ensures !ValidProductionItem(ProductionItem(code, DefaultItemQuantity))
  {
  }
}
