/**
 * `ProductionService` over the database: planning reads the tables,
 * confirming an item writes raw-material stock only after every one of
 * its lines has been checked, a batch confirms its items one by one, and a
 * stored production moves once from PENDING to CONFIRMED.
 */
module ProductionService {
  import opened Outcomes
  import opened Entities
  import opened Decimal
  import opened ProductionDto
  import opened ProductionPlanning
  import opened ProductionConfirmation
  import opened Catalog

  /** Confirming an item keeps the raw-material table keyed and every stock non-negative. */
  lemma ConfirmItemKeepsTablesValid(products: map<Code, Product>, rms: map<Code, RawMaterial>,
                                    lines: seq<RecipeLine>, item: ProductionItemRequest)
    requires RawMaterialsValid(rms) && UniquePairs(lines)
    ensures RawMaterialsValid(ConfirmItem(products, rms, lines, item).1)
  {
    var after := ConfirmItem(products, rms, lines, item).1;
    forall c | c in after
      ensures after[c].code == c && ValidRawMaterial(after[c])
    {
      ConfirmItemStock(products, rms, lines, item, c);
      ConfirmItemKeepsStockValid(products, rms, lines, item, c);
    }
  }

  /** A batch keeps the raw-material table keyed and every stock non-negative. */
  lemma {:induction false} ConfirmAllKeepsTablesValid(products: map<Code, Product>, rms: map<Code, RawMaterial>,
                                                      lines: seq<RecipeLine>, items: seq<ProductionItemRequest>)
    requires RawMaterialsValid(rms) && UniquePairs(lines)
    ensures RawMaterialsValid(ConfirmAll(products, rms, lines, items).1)
    decreases |items|
  {
    if items != [] {
      var prefix := items[..|items| - 1];
      ConfirmAllKeepsTablesValid(products, rms, lines, prefix);
      ConfirmItemKeepsTablesValid(products, ConfirmAll(products, rms, lines, prefix).1, lines, items[|items| - 1]);
    }
  }

  /** A successful check only plans stock for raw materials that exist. */
  lemma CheckStockKeys(lines: seq<RecipeLine>, rms: map<Code, RawMaterial>, requested: int)
    requires CheckStock(lines, rms, requested).Ok?
    ensures CheckStock(lines, rms, requested).value.Keys <= rms.Keys
    decreases |lines|
  {
    if lines != [] {
      CheckStockKeys(lines[..|lines| - 1], rms, requested);
    }
  }

  /**
   * The check loop of `confirmProductionItem`: every line is checked
   * against the stock, and the first missing raw material or shortfall
   * ends the loop before anything is written.
   */
  method CheckAssociations(rawMaterials: map<Code, RawMaterial>, associations: seq<RecipeLine>, quantity: int)
    returns (res: Result<map<Code, Amount>>)
    ensures res == CheckStock(associations, rawMaterials, quantity)
  {
    var stockUpdates: map<Code, Amount> := map[];
    var i := 0;
    while i < |associations|
      invariant 0 <= i <= |associations|
      invariant CheckStock(associations[..i], rawMaterials, quantity) == Ok(stockUpdates)
    {
      var association := associations[i];
      assert associations[..i + 1][..i] == associations[..i];
      if association.rawMaterialCode !in rawMaterials {
        res := Err(NotFound("Raw material " + association.rawMaterialCode + " not found", "RAW_MATERIAL_NOT_FOUND"));
        CheckStockFirstFailure(associations, rawMaterials, quantity, i + 1);
        return;
      }
      var rawMaterial := rawMaterials[association.rawMaterialCode];
      var requiredQuantity := association.quantity * quantity;
      var availableQuantity := rawMaterial.stockQuantity;
      if requiredQuantity > availableQuantity {
        res := Err(InsufficientStock(
          InsufficientStockMessage(association.rawMaterialCode, requiredQuantity, availableQuantity),
          association.rawMaterialCode, availableQuantity, requiredQuantity));
        CheckStockFirstFailure(associations, rawMaterials, quantity, i + 1);
        return;
      }
      stockUpdates := stockUpdates[association.rawMaterialCode := availableQuantity - requiredQuantity];
      i := i + 1;
    }
    assert associations[..i] == associations;
    res := Ok(stockUpdates);
  }

  /** The write loop of `confirmProductionItem`: each planned stock replaces the stored one. */
  method WriteStock(db: Store, stockUpdates: map<Code, Amount>)
    requires stockUpdates.Keys <= db.rawMaterials.Keys
    modifies db
    ensures db.rawMaterials == ApplyStock(old(db.rawMaterials), stockUpdates)
    ensures db.products == old(db.products) && db.recipeLines == old(db.recipeLines)
    ensures db.productions == old(db.productions)
  {
    var pending := stockUpdates.Keys;
    while pending != {}
      invariant pending <= stockUpdates.Keys
      invariant db.rawMaterials.Keys == old(db.rawMaterials).Keys
      invariant forall c :: c in db.rawMaterials ==>
        db.rawMaterials[c] == (if c in stockUpdates && c !in pending
                               then old(db.rawMaterials)[c].(stockQuantity := stockUpdates[c])
                               else old(db.rawMaterials)[c])
      invariant db.products == old(db.products) && db.recipeLines == old(db.recipeLines)
      invariant db.productions == old(db.productions)
      decreases |pending|
    {
      var rawMaterialCode :| rawMaterialCode in pending;
      var rawMaterial := db.rawMaterials[rawMaterialCode];
      db.rawMaterials := db.rawMaterials[rawMaterialCode := rawMaterial.(stockQuantity := stockUpdates[rawMaterialCode])];
      pending := pending - {rawMaterialCode};
    }
    assert db.rawMaterials == ApplyStock(old(db.rawMaterials), stockUpdates);
  }

  /**
   * `confirmProductionItem`: look the product and its lines up, check
   * every line against the stock before writing, then write the planned
   * stock of each raw material.
   */
  method ConfirmProductionItem(db: Store, item: ProductionItemRequest) returns (r: Result<ConfirmItemResult>)
    modifies db
    ensures (r, db.rawMaterials) == ConfirmItem(old(db.products), old(db.rawMaterials), old(db.recipeLines), item)
    ensures db.products == old(db.products) && db.recipeLines == old(db.recipeLines)
    ensures db.productions == old(db.productions)
  {
    if item.productCode !in db.products {
      return Err(NotFound("Product with code " + item.productCode + " not found", "PRODUCT_NOT_FOUND"));
    }
    var product := db.products[item.productCode];
    var associations := LinesOf(db.recipeLines, item.productCode);
    if associations == [] {
      return Err(NotFound("No raw materials associated with product " + item.productCode,
                          "PRODUCT_RAW_MATERIAL_NOT_FOUND"));
    }
    var checked := CheckAssociations(db.rawMaterials, associations, item.quantity);
    if checked.Err? {
      return Err(checked.failure);
    }
    CheckStockKeys(associations, db.rawMaterials, item.quantity);
    WriteStock(db, checked.value);
    r := Ok(SuccessResult(product, item.quantity));
  }

  /**
   * The body of the `confirmProduction` loop for one item: the result of
   * `confirmProductionItem`, or the failed result built from what it threw.
   */
  method ConfirmOrReport(db: Store, item: ProductionItemRequest) returns (result: ConfirmItemResult)
    modifies db
    ensures result == ItemOutcome(old(db.products), old(db.rawMaterials), old(db.recipeLines), item)
    ensures db.rawMaterials == ConfirmItem(old(db.products), old(db.rawMaterials), old(db.recipeLines), item).1
    ensures db.products == old(db.products) && db.recipeLines == old(db.recipeLines)
    ensures db.productions == old(db.productions)
  {
    var r := ConfirmProductionItem(db, item);
    match r {
      case Ok(confirmed) =>
        result := confirmed;
      case Err(e) =>
        var productName := if item.productCode in db.products then db.products[item.productCode].name
                           else item.productCode;
        result := ConfirmItemResult(item.productCode, productName, item.quantity, 0, false, Some(FailureMessage(e)));
    }
  }

  /**
   * One pass of the `confirmProduction` loop: item `k` is confirmed or
   * reported, its result is added and the matching counter bumped.
   */
  method ConfirmNext(db: Store, item: ProductionItemRequest,
                     results: seq<ConfirmItemResult>, totalValue: Amount, successCount: int, failureCount: int)
    returns (results': seq<ConfirmItemResult>, totalValue': Amount, successCount': int, failureCount': int)
    modifies db
    ensures ConfirmProductionResponse(results', totalValue', successCount', failureCount')
         == Record(ConfirmProductionResponse(results, totalValue, successCount, failureCount),
                   ItemOutcome(old(db.products), old(db.rawMaterials), old(db.recipeLines), item))
    ensures db.rawMaterials == ConfirmItem(old(db.products), old(db.rawMaterials), old(db.recipeLines), item).1
    ensures db.products == old(db.products) && db.recipeLines == old(db.recipeLines)
    ensures db.productions == old(db.productions)
  {
    var result := ConfirmOrReport(db, item);
    results' := results + [result];
    totalValue', successCount', failureCount' := totalValue, successCount, failureCount;
    if result.success {
      totalValue' := totalValue + result.totalValue;
      successCount' := successCount + 1;
    } else {
      failureCount' := failureCount + 1;
    }
  }

  /**
   * `confirmProduction`: every item is tried in order; a failure becomes a
   * failed result and the batch goes on with the stock as it stands.
   */
  method ConfirmProduction(db: Store, request: ConfirmProductionRequest) returns (response: ConfirmProductionResponse)
    requires db.Valid()
    modifies db
    ensures db.Valid()
    ensures (response, db.rawMaterials)
         == ConfirmAll(old(db.products), old(db.rawMaterials), old(db.recipeLines), request.items)
    ensures db.products == old(db.products) && db.recipeLines == old(db.recipeLines)
    ensures db.productions == old(db.productions)
  {
    ghost var products, lines := db.products, db.recipeLines;
    ghost var rms := db.rawMaterials;
    var results: seq<ConfirmItemResult> := [];
    var totalValue: Amount := 0;
    var successCount := 0;
    var failureCount := 0;
    var k := 0;
    while k < |request.items|
      invariant 0 <= k <= |request.items|
      invariant db.products == products && db.recipeLines == lines
      invariant db.productions == old(db.productions)
      invariant ConfirmAll(products, rms, lines, request.items[..k])
             == (ConfirmProductionResponse(results, totalValue, successCount, failureCount), db.rawMaterials)
    {
      ConfirmAllStep(products, rms, lines, request.items, k);
      results, totalValue, successCount, failureCount :=
        ConfirmNext(db, request.items[k], results, totalValue, successCount, failureCount);
      k := k + 1;
    }
    assert request.items[..k] == request.items;
    ConfirmAllKeepsTablesValid(products, rms, lines, request.items);
    response := ConfirmProductionResponse(results, totalValue, successCount, failureCount);
  }

  /**
   * `createProduction`: a new PENDING production stamped `now` holding
   * the request's items in order, stored under the id the database
   * assigns. Persisting checks every item's constraints, so an item with a
   * blank code or a quantity below one fails the whole insert.
   */
  method CreateProduction(db: Store, request: ConfirmProductionRequest, id: int, now: int)
    returns (r: Result<ProductionView>)
    requires db.Valid() && id !in db.productions
    modifies db
    ensures db.Valid()
    ensures db.products == old(db.products) && db.rawMaterials == old(db.rawMaterials)
    ensures db.recipeLines == old(db.recipeLines)
    ensures r.Ok? <==> forall i :: 0 <= i < |request.items| ==>
      ValidProductionItem(ProductionItem(request.items[i].productCode, request.items[i].quantity))
    ensures r.Err? ==> r.failure.ConstraintViolation? && db.productions == old(db.productions)
    ensures r.Ok? ==>
      id in db.productions && db.productions == old(db.productions)[id := db.productions[id]]
      && db.productions[id].status == PENDING && db.productions[id].createdAt == now
      && |db.productions[id].items| == |request.items|
      && (forall i :: 0 <= i < |request.items| ==>
            db.productions[id].items[i] == ProductionItem(request.items[i].productCode, request.items[i].quantity))
      && r.value.id == id && r.value.status == "PENDING" && r.value.createdAt == now
      && |r.value.items| == |request.items|
      && (forall i :: 0 <= i < |request.items| ==>
            r.value.items[i] == ProductionItemView(request.items[i].productCode, request.items[i].quantity))
  {
    var production := NewProduction(now);
    var valid := true;
    for i := 0 to |request.items|
      invariant production.status == PENDING && production.createdAt == now
      invariant |production.items| == i
      invariant forall j :: 0 <= j < i ==>
        production.items[j] == ProductionItem(request.items[j].productCode, request.items[j].quantity)
      invariant valid <==> forall j :: 0 <= j < i ==> ValidProductionItem(production.items[j])
    {
      var pi := ProductionItem(request.items[i].productCode, request.items[i].quantity);
      production := production.(items := production.items + [pi]);
      valid := valid && ValidProductionItem(pi);
    }
    if !valid {
      return Err(ConstraintViolation("Production item violates its constraints"));
    }
    db.productions := db.productions[id := production];
    var views: seq<ProductionItemView> := [];
    for i := 0 to |production.items|
      invariant |views| == i
      invariant forall j :: 0 <= j < i ==>
        views[j] == ProductionItemView(production.items[j].productCode, production.items[j].quantity)
    {
      views := views + [ProductionItemView(production.items[i].productCode, production.items[i].quantity)];
    }
    r := Ok(ProductionView(id, StatusName(production.status), views, production.createdAt));
  }

  /** The confirm request a stored production stands for: its items, in order. */
  function RequestsOf(items: seq<ProductionItem>): (rs: seq<ProductionItemRequest>)
    ensures |rs| == |items|
    ensures forall i :: 0 <= i < |items| ==>
      rs[i].productCode == items[i].productCode && rs[i].quantity == items[i].quantity
  {
    seq(|items|, i requires 0 <= i < |items| => ProductionItemRequest(items[i].productCode, items[i].quantity))
  }

  /**
   * `confirmProductionById` on the tables: the response or the exception,
   * the raw-material table and the production table afterwards.
   */
  function ConfirmById(products: map<Code, Product>, rms: map<Code, RawMaterial>, lines: seq<RecipeLine>,
                       productions: map<int, Production>, id: int)
    : (o: (Result<ConfirmProductionResponse>, map<Code, RawMaterial>, map<int, Production>))
    ensures o.0.Err? ==> o.1 == rms && o.2 == productions
    ensures o.2.Keys == productions.Keys
  {
    if id !in productions then
      (Err(NotFound("Production with id " + IntToString(id) + " not found", "PRODUCTION_NOT_FOUND")),
       rms, productions)
    else if productions[id].status != PENDING then
      (Err(BadRequest("Production " + IntToString(id) + " is already confirmed or invalid")), rms, productions)
    else
      var (response, after) := ConfirmAll(products, rms, lines, RequestsOf(productions[id].items));
      (Ok(response), after, productions[id := productions[id].(status := CONFIRMED)])
  }

  /**
   * The lifecycle: an unknown id is NotFound, a production that is not
   * PENDING is a BadRequest, and otherwise the production ends CONFIRMED
   * whatever its items' outcomes, with every other production unchanged.
   */
  lemma ConfirmByIdOutcome(products: map<Code, Product>, rms: map<Code, RawMaterial>, lines: seq<RecipeLine>,
                           productions: map<int, Production>, id: int)
    ensures var o := ConfirmById(products, rms, lines, productions, id);
      (id !in productions ==> o.0.Err? && o.0.failure.NotFound? && o.0.failure.errorCode == "PRODUCTION_NOT_FOUND")
      && (id in productions && productions[id].status == CONFIRMED ==> o.0.Err? && o.0.failure.BadRequest?)
      && (id in productions && productions[id].status == PENDING ==>
            o.0.Ok? && o.2[id] == productions[id].(status := CONFIRMED)
            && (o.0.value, o.1) == ConfirmAll(products, rms, lines, RequestsOf(productions[id].items)))
      && (forall other :: other in productions && other != id ==> o.2[other] == productions[other])
  {
  }

  /** A production is confirmed at most once: confirming it again is rejected and changes nothing. */
  lemma ConfirmByIdOnce(products: map<Code, Product>, rms: map<Code, RawMaterial>, lines: seq<RecipeLine>,
                        productions: map<int, Production>, id: int)
    requires ConfirmById(products, rms, lines, productions, id).0.Ok?
    ensures var (_, rms', productions') := ConfirmById(products, rms, lines, productions, id);
      var again := ConfirmById(products, rms', lines, productions', id);
      again.0.Err? && again.0.failure.BadRequest? && again.1 == rms' && again.2 == productions'
  {
  }

  /** `confirmProductionById` against the database. */
  method ConfirmProductionById(db: Store, id: int) returns (r: Result<ConfirmProductionResponse>)
    requires db.Valid()
    modifies db
    ensures db.Valid()
    ensures (r, db.rawMaterials, db.productions)
         == ConfirmById(old(db.products), old(db.rawMaterials), old(db.recipeLines), old(db.productions), id)
    ensures db.products == old(db.products) && db.recipeLines == old(db.recipeLines)
  {
    if id !in db.productions {
      return Err(NotFound("Production with id " + IntToString(id) + " not found", "PRODUCTION_NOT_FOUND"));
    }
    var production := db.productions[id];
    if production.status != PENDING {
      return Err(BadRequest("Production " + IntToString(id) + " is already confirmed or invalid"));
    }
    var request := ConfirmProductionRequest(RequestsOf(production.items));
    var response := ConfirmProduction(db, request);
    db.productions := db.productions[id := production.(status := CONFIRMED)];
    r := Ok(response);
  }
}
