/**
 * `ProductRawMaterialService`: the recipe lines of a product. A line can
 * only link a stored product to a stored raw material, one line per pair.
 */
module ProductRawMaterialService {
  import opened Outcomes
  import opened Entities
  import opened ProductRawMaterialDto
  import opened Catalog

  /** Whether `l` links exactly the pair (`productCode`, `rawMaterialCode`). */
  predicate IsPair(l: RecipeLine, productCode: Code, rawMaterialCode: Code)
  {
    l.productCode == productCode && l.rawMaterialCode == rawMaterialCode
  }

  /** The view of every line, each with the names of the rows it links. */
  function Views(lines: seq<RecipeLine>, ps: map<Code, Product>, rs: map<Code, RawMaterial>): (vs: seq<RecipeLineView>)
    requires forall i :: 0 <= i < |lines| ==> lines[i].productCode in ps && lines[i].rawMaterialCode in rs
    ensures |vs| == |lines|
    ensures forall i :: 0 <= i < |lines| ==>
      vs[i] == ToView(lines[i], ps[lines[i].productCode].name, rs[lines[i].rawMaterialCode].name)
  {
    seq(|lines|, i requires 0 <= i < |lines| =>
      ToView(lines[i], ps[lines[i].productCode].name, rs[lines[i].rawMaterialCode].name))
  }

  /** `getByProductCode`: the product's lines, or NotFound when there is no such product. */
  method GetByProductCode(db: Store, productCode: Code) returns (r: Result<seq<RecipeLineView>>)
    requires db.Valid()
    ensures productCode !in db.products <==> r.Err?
    ensures r.Err? ==> r.failure == NotFoundDefault("Product with code " + productCode + " not found")
    ensures r.Ok? ==>
      var lines := LinesOf(db.recipeLines, productCode);
      |r.value| == |lines|
      && forall i :: 0 <= i < |lines| ==>
           r.value[i].productCode == productCode && r.value[i].rawMaterialCode == lines[i].rawMaterialCode
           && r.value[i].quantity == lines[i].quantity
           && r.value[i].productName == Some(db.products[productCode].name)
           && lines[i].rawMaterialCode in db.rawMaterials
           && r.value[i].rawMaterialName == Some(db.rawMaterials[lines[i].rawMaterialCode].name)
  {
    if productCode !in db.products {
      return Err(NotFoundDefault("Product with code " + productCode + " not found"));
    }
    var lines := LinesOf(db.recipeLines, productCode);
    forall i | 0 <= i < |lines|
      ensures lines[i].productCode == productCode && lines[i].rawMaterialCode in db.rawMaterials
    {
      assert lines[i] in lines;
      var j :| 0 <= j < |db.recipeLines| && db.recipeLines[j] == lines[i];
    }
    r := Ok(Views(lines, db.products, db.rawMaterials));
  }

  /**
   * `create`: link the product to a raw material. The product must
   * exist, then the raw material, then the pair must be new; the stored
   * line's codes come from the linked rows.
   */
  method Create(db: Store, productCode: Code, request: CreateRecipeLineRequest) returns (r: Result<RecipeLineView>)
    requires db.Valid()
    modifies db
    ensures db.Valid()
    ensures db.products == old(db.products) && db.rawMaterials == old(db.rawMaterials)
    ensures db.productions == old(db.productions)
    ensures productCode !in db.products ==>
      r == Err(NotFoundDefault("Product with code " + productCode + " not found"))
    ensures productCode in db.products && request.rawMaterialCode !in db.rawMaterials ==>
      r == Err(NotFoundDefault("Raw material with code " + request.rawMaterialCode + " not found"))
    ensures productCode in db.products && request.rawMaterialCode in db.rawMaterials
            && HasPair(old(db.recipeLines), productCode, request.rawMaterialCode) ==>
      r == Err(BadRequest("Association already exists"))
    ensures productCode in db.products && request.rawMaterialCode in db.rawMaterials
            && !HasPair(old(db.recipeLines), productCode, request.rawMaterialCode) && request.quantity <= 0 ==>
      r.Err? && r.failure.ConstraintViolation?
    ensures r.Ok? <==>
      productCode in db.products && request.rawMaterialCode in db.rawMaterials
      && !HasPair(old(db.recipeLines), productCode, request.rawMaterialCode) && request.quantity > 0
    ensures r.Ok? ==>
      var line := RecipeLine(productCode, request.rawMaterialCode, request.quantity);
      db.recipeLines == old(db.recipeLines) + [line]
      && r.value == ToView(line, db.products[productCode].name, db.rawMaterials[request.rawMaterialCode].name)
    ensures r.Err? ==> db.recipeLines == old(db.recipeLines)
  {
    if productCode !in db.products {
      return Err(NotFoundDefault("Product with code " + productCode + " not found"));
    }
    var product := db.products[productCode];
    if request.rawMaterialCode !in db.rawMaterials {
      return Err(NotFoundDefault("Raw material with code " + request.rawMaterialCode + " not found"));
    }
    var rawMaterial := db.rawMaterials[request.rawMaterialCode];
    if FindPair(db.recipeLines, productCode, request.rawMaterialCode).Some? {
      return Err(BadRequest("Association already exists"));
    }
    var line := NewRecipeLine(product, rawMaterial, request.quantity);
    if !ValidRecipeLine(line) {
      return Err(ConstraintViolation("Product raw material violates its constraints"));
    }
    AppendKeepsUniquePairs(db.recipeLines, line);
    db.recipeLines := db.recipeLines + [line];
    r := Ok(ToView(line, product.name, rawMaterial.name));
  }

  /** Giving one line a new quantity keeps the unique constraint: the pair is unchanged. */
  lemma ReplaceKeepsLinesValid(lines: seq<RecipeLine>, k: nat, quantity: Amount,
                               ps: map<Code, Product>, rs: map<Code, RawMaterial>)
    requires LinesValid(lines, ps, rs) && k < |lines| && quantity > 0
    ensures LinesValid(lines[k := WithQuantity(lines[k], quantity)], ps, rs)
  {
    var r := lines[k := WithQuantity(lines[k], quantity)];
    forall i, j | 0 <= i < j < |r|
      ensures r[i].productCode != r[j].productCode || r[i].rawMaterialCode != r[j].rawMaterialCode
    {
      assert IsPair(r[i], lines[i].productCode, lines[i].rawMaterialCode);
      assert IsPair(r[j], lines[j].productCode, lines[j].rawMaterialCode);
    }
  }

  /**
   * `update`: the pair's line takes the request's quantity; no other line
   * changes. A missing pair is NotFound.
   */
  method Update(db: Store, productCode: Code, rawMaterialCode: Code, request: UpdateRecipeLineRequest)
    returns (r: Result<RecipeLineView>)
    requires db.Valid()
    modifies db
    ensures db.Valid()
    ensures db.products == old(db.products) && db.rawMaterials == old(db.rawMaterials)
    ensures db.productions == old(db.productions)
    ensures !HasPair(old(db.recipeLines), productCode, rawMaterialCode) ==>
      r == Err(NotFoundDefault("Association not found"))
    ensures HasPair(old(db.recipeLines), productCode, rawMaterialCode) && request.quantity <= 0 ==>
      r.Err? && r.failure.ConstraintViolation?
    ensures r.Ok? <==> HasPair(old(db.recipeLines), productCode, rawMaterialCode) && request.quantity > 0
    ensures r.Err? ==> db.recipeLines == old(db.recipeLines)
    ensures r.Ok? ==>
      |db.recipeLines| == |old(db.recipeLines)|
      && (forall i :: 0 <= i < |db.recipeLines| ==>
            db.recipeLines[i] == if IsPair(old(db.recipeLines)[i], productCode, rawMaterialCode)
                                 then WithQuantity(old(db.recipeLines)[i], request.quantity)
                                 else old(db.recipeLines)[i])
      && r.value == ToView(RecipeLine(productCode, rawMaterialCode, request.quantity),
                           db.products[productCode].name, db.rawMaterials[rawMaterialCode].name)
  {
    var found := FindPair(db.recipeLines, productCode, rawMaterialCode);
    if found.None? {
      return Err(NotFoundDefault("Association not found"));
    }
    var k := found.value;
    var updated := WithQuantity(db.recipeLines[k], request.quantity);
    if !ValidRecipeLine(updated) {
      return Err(ConstraintViolation("Product raw material violates its constraints"));
    }
    forall i | 0 <= i < |db.recipeLines| && IsPair(db.recipeLines[i], productCode, rawMaterialCode)
      ensures i == k
    {
      FindPairUnique(db.recipeLines, productCode, rawMaterialCode, i);
    }
    ReplaceKeepsLinesValid(db.recipeLines, k, request.quantity, db.products, db.rawMaterials);
    assert db.recipeLines[k].productCode in db.products && db.recipeLines[k].rawMaterialCode in db.rawMaterials;
    db.recipeLines := db.recipeLines[k := updated];
    r := Ok(ToView(updated, db.products[productCode].name, db.rawMaterials[rawMaterialCode].name));
  }

  /** Removing one line keeps every remaining line valid. */
  lemma RemoveKeepsLinesValid(lines: seq<RecipeLine>, k: nat, ps: map<Code, Product>, rs: map<Code, RawMaterial>)
    requires LinesValid(lines, ps, rs) && k < |lines|
    ensures LinesValid(lines[..k] + lines[k + 1..], ps, rs)
  {
    var r := lines[..k] + lines[k + 1..];
    assert forall i :: 0 <= i < |r| ==> r[i] == if i < k then lines[i] else lines[i + 1];
  }

  /** Under the unique constraint, removing the pair's line drops that pair and nothing else. */
  lemma RemoveDropsExactlyThePair(lines: seq<RecipeLine>, productCode: Code, rawMaterialCode: Code, k: nat)
    requires UniquePairs(lines) && k < |lines| && IsPair(lines[k], productCode, rawMaterialCode)
    ensures forall l :: l in lines[..k] + lines[k + 1..] <==> l in lines && !IsPair(l, productCode, rawMaterialCode)
  {
    var rest := lines[..k] + lines[k + 1..];
    assert forall i :: 0 <= i < |rest| ==> rest[i] == if i < k then lines[i] else lines[i + 1];
    forall l | l in lines && !IsPair(l, productCode, rawMaterialCode)
      ensures l in rest
    {
      var j :| 0 <= j < |lines| && lines[j] == l;
      assert j != k;
      if j < k { assert rest[j] == l; } else { assert rest[j - 1] == l; }
    }
    forall l | l in rest
      ensures l in lines && !IsPair(l, productCode, rawMaterialCode)
    {
      var j :| 0 <= j < |rest| && rest[j] == l;
      var i := if j < k then j else j + 1;
      assert lines[i] == l && i != k;
      assert lines[i].productCode != lines[k].productCode || lines[i].rawMaterialCode != lines[k].rawMaterialCode;
    }
  }

  /** `delete`: the pair's line goes and every other line stays, in order. A missing pair is NotFound. */
  method Delete(db: Store, productCode: Code, rawMaterialCode: Code) returns (r: Result<()>)
    requires db.Valid()
    modifies db
    ensures db.Valid()
    ensures db.products == old(db.products) && db.rawMaterials == old(db.rawMaterials)
    ensures db.productions == old(db.productions)
    ensures r.Ok? <==> HasPair(old(db.recipeLines), productCode, rawMaterialCode)
    ensures r.Err? ==> r == Err(NotFoundDefault("Association not found")) && db.recipeLines == old(db.recipeLines)
    ensures r.Ok? ==>
      |db.recipeLines| == |old(db.recipeLines)| - 1
      && (forall l :: l in db.recipeLines <==> l in old(db.recipeLines) && !IsPair(l, productCode, rawMaterialCode))
    ensures r.Ok? ==>
      var k := FindPair(old(db.recipeLines), productCode, rawMaterialCode).value;
      db.recipeLines == old(db.recipeLines)[..k] + old(db.recipeLines)[k + 1..]
  {
    var found := FindPair(db.recipeLines, productCode, rawMaterialCode);
    if found.None? {
      return Err(NotFoundDefault("Association not found"));
    }
    var k := found.value;
    var lines := db.recipeLines;
    var rest := lines[..k] + lines[k + 1..];
    RemoveDropsExactlyThePair(lines, productCode, rawMaterialCode, k);
    RemoveKeepsLinesValid(lines, k, db.products, db.rawMaterials);
    db.recipeLines := rest;
    r := Ok(());
  }
}
