/**
 * What confirming production does to stock, as functions of the tables:
 * `confirmProductionItem` checks every recipe line of one item before it
 * writes any stock, and `confirmProduction` runs the items one after the
 * other, turning each failure into a failed result instead of aborting.
 */
module ProductionConfirmation {
  import opened Outcomes
  import opened Entities
  import opened Decimal
  import opened ProductionDto
  import opened ProductionPlanning

  function InsufficientStockMessage(code: Code, required: Amount, available: Amount): string
  {
    "Insufficient stock for raw material " + code + ". Required: " + FormatAmount(required)
      + ", Available: " + FormatAmount(available)
  }

  /**
   * The check loop over an item's lines: the new stock of every line's raw
   * material, or the first missing raw material or shortfall. A line needs
   * `quantity * requested`, and only more than is on hand is a shortfall.
   */
  function CheckStock(lines: seq<RecipeLine>, rms: map<Code, RawMaterial>, requested: int): Result<map<Code, Amount>>
    decreases |lines|
  {
    if lines == [] then Ok(map[])
    else
      match CheckStock(lines[..|lines| - 1], rms, requested)
      case Err(f) => Err(f)
      case Ok(updates) =>
        var l := lines[|lines| - 1];
        if l.rawMaterialCode !in rms then
          Err(NotFound("Raw material " + l.rawMaterialCode + " not found", "RAW_MATERIAL_NOT_FOUND"))
        else
          var required := l.quantity * requested;
          var available := rms[l.rawMaterialCode].stockQuantity;
          if required > available then
            Err(InsufficientStock(InsufficientStockMessage(l.rawMaterialCode, required, available),
                                  l.rawMaterialCode, available, required))
          else Ok(updates[l.rawMaterialCode := available - required])
  }

  /** Whether every line's raw material exists and covers the line's need. */
  predicate StockCovers(lines: seq<RecipeLine>, rms: map<Code, RawMaterial>, requested: int)
  {
    forall i :: 0 <= i < |lines| ==>
      lines[i].rawMaterialCode in rms
      && lines[i].quantity * requested <= rms[lines[i].rawMaterialCode].stockQuantity
  }

  /** The check succeeds exactly when the stock covers every line. */
  lemma {:induction false} CheckStockOkIff(lines: seq<RecipeLine>, rms: map<Code, RawMaterial>, requested: int)
    ensures CheckStock(lines, rms, requested).Ok? <==> StockCovers(lines, rms, requested)
    decreases |lines|
  {
    if lines != [] {
      var prefix := lines[..|lines| - 1];
      CheckStockOkIff(prefix, rms, requested);
      assert forall i :: 0 <= i < |prefix| ==> prefix[i] == lines[i];
    }
  }

  /** A failure in the first `k` lines is the failure of the whole check. */
  lemma {:induction false} CheckStockFirstFailure(lines: seq<RecipeLine>, rms: map<Code, RawMaterial>, requested: int, k: int)
    requires 0 <= k <= |lines| && CheckStock(lines[..k], rms, requested).Err?
    ensures CheckStock(lines, rms, requested) == CheckStock(lines[..k], rms, requested)
    decreases |lines|
  {
    if k < |lines| {
      var prefix := lines[..|lines| - 1];
      assert prefix[..k] == lines[..k];
      CheckStockFirstFailure(prefix, rms, requested, k);
    } else {
      assert lines[..k] == lines;
    }
  }

  /** Whether `f` is the failure line `l` reports: its raw material missing, or short of what the line needs. */
  predicate LineFailure(l: RecipeLine, rms: map<Code, RawMaterial>, requested: int, f: Failure)
  {
    if l.rawMaterialCode !in rms then
      f == NotFound("Raw material " + l.rawMaterialCode + " not found", "RAW_MATERIAL_NOT_FOUND")
    else
      f.InsufficientStock? && f.rawMaterialCode == l.rawMaterialCode
      && f.requested == l.quantity * requested && f.available == rms[l.rawMaterialCode].stockQuantity
      && f.requested > f.available
  }

  /** A failed check is reported by one of the lines. */
  lemma {:induction false} CheckStockFailure(lines: seq<RecipeLine>, rms: map<Code, RawMaterial>, requested: int)
    ensures var r := CheckStock(lines, rms, requested);
      r.Err? ==> exists i :: 0 <= i < |lines| && LineFailure(lines[i], rms, requested, r.failure)
    decreases |lines|
  {
    if lines != [] {
      var prefix := lines[..|lines| - 1];
      CheckStockFailure(prefix, rms, requested);
      var r := CheckStock(lines, rms, requested);
      if CheckStock(prefix, rms, requested).Err? {
        var i :| 0 <= i < |prefix| && LineFailure(prefix[i], rms, requested, r.failure);
        assert prefix[i] == lines[i];
      } else if r.Err? {
        assert LineFailure(lines[|lines| - 1], rms, requested, r.failure);
      }
    }
  }

  /** The raw materials the lines name. */
  function Materials(lines: seq<RecipeLine>): set<Code>
  {
    set i | 0 <= i < |lines| :: lines[i].rawMaterialCode
  }

  /**
   * What a successful check plans: for each raw material the lines name,
   * its stock less what the lines need of it, never negative; nothing else.
   */
  predicate PlannedStock(lines: seq<RecipeLine>, rms: map<Code, RawMaterial>, requested: int, updates: map<Code, Amount>)
  {
    updates.Keys == Materials(lines)
    && forall c :: c in updates ==>
         c in rms && updates[c] == rms[c].stockQuantity - QuantityFor(lines, c) * requested && updates[c] >= 0
  }

  /** The last line adds its own raw material to those of the lines before it. */
  lemma MaterialsLast(lines: seq<RecipeLine>)
    requires lines != []
    ensures Materials(lines) == Materials(lines[..|lines| - 1]) + {lines[|lines| - 1].rawMaterialCode}
  {
    var prefix := lines[..|lines| - 1];
    assert forall i :: 0 <= i < |prefix| ==> prefix[i] == lines[i];
    forall c | c in Materials(lines)
      ensures c in Materials(prefix) + {lines[|lines| - 1].rawMaterialCode}
    {
      var i :| 0 <= i < |lines| && lines[i].rawMaterialCode == c;
      if i < |prefix| {
        assert prefix[i].rawMaterialCode == c;
      }
    }
  }

  /** Under distinct raw materials the last line's material is new, and the lines before stay distinct. */
  lemma DistinctLast(lines: seq<RecipeLine>)
    requires lines != [] && DistinctMaterials(lines)
    ensures DistinctMaterials(lines[..|lines| - 1])
    ensures lines[|lines| - 1].rawMaterialCode !in Materials(lines[..|lines| - 1])
  {
    var prefix := lines[..|lines| - 1];
    assert forall i :: 0 <= i < |prefix| ==> prefix[i] == lines[i];
    forall i | 0 <= i < |prefix|
      ensures prefix[i].rawMaterialCode != lines[|lines| - 1].rawMaterialCode
    {
      assert prefix[i] == lines[i];
    }
  }

  lemma {:induction false} CheckStockPlans(lines: seq<RecipeLine>, rms: map<Code, RawMaterial>, requested: int)
    requires DistinctMaterials(lines)
    requires CheckStock(lines, rms, requested).Ok?
    ensures PlannedStock(lines, rms, requested, CheckStock(lines, rms, requested).value)
    decreases |lines|
  {
    if lines != [] {
      var prefix := lines[..|lines| - 1];
      var l := lines[|lines| - 1];
      DistinctLast(lines);
      CheckStockPlans(prefix, rms, requested);
      MaterialsLast(lines);
      var u := CheckStock(prefix, rms, requested).value;
      var v := CheckStock(lines, rms, requested).value;
      assert v == u[l.rawMaterialCode := rms[l.rawMaterialCode].stockQuantity - l.quantity * requested];
      forall c | c in v
        ensures c in rms && v[c] == rms[c].stockQuantity - QuantityFor(lines, c) * requested && v[c] >= 0
      {
        if c == l.rawMaterialCode {
          QuantityForDistinct(lines, |lines| - 1);
        } else {
          assert QuantityFor(lines, c) == QuantityFor(prefix, c);
        }
      }
    }
  }

  /** Planned stock replaces the stock of the raw materials it names. */
  function ApplyStock(rms: map<Code, RawMaterial>, updates: map<Code, Amount>): (r: map<Code, RawMaterial>)
    ensures r.Keys == rms.Keys
  {
    map c | c in rms :: if c in updates then rms[c].(stockQuantity := updates[c]) else rms[c]
  }

  /**
   * Stock after a successful check: each raw material loses what the lines
   * need of it, and everything else about every raw material is kept.
   */
  lemma ApplyPlannedStock(lines: seq<RecipeLine>, rms: map<Code, RawMaterial>, requested: int, c: Code)
    requires DistinctMaterials(lines)
    requires CheckStock(lines, rms, requested).Ok?
    requires c in rms
    ensures var after := ApplyStock(rms, CheckStock(lines, rms, requested).value);
      after[c] == rms[c].(stockQuantity := rms[c].stockQuantity - QuantityFor(lines, c) * requested)
      && after[c].stockQuantity >= (if QuantityFor(lines, c) == 0 then rms[c].stockQuantity else 0)
  {
    CheckStockPlans(lines, rms, requested);
    var updates := CheckStock(lines, rms, requested).value;
    var after := ApplyStock(rms, updates);
    if c in updates {
      assert after[c] == rms[c].(stockQuantity := updates[c]);
    } else {
      assert after[c] == rms[c];
      assert c !in Materials(lines);
      QuantityForAbsent(lines, c) by {
        forall x | x in lines ensures x.rawMaterialCode != c {
          var i :| 0 <= i < |lines| && lines[i] == x;
          assert x.rawMaterialCode in Materials(lines);
        }
      }
    }
  }

  /** The result of a confirmed item. */
  function SuccessResult(product: Product, quantity: int): (r: ConfirmItemResult)
  {
    ConfirmItemResult(product.code, product.name, quantity, product.value * quantity, true,
                      Some("Production confirmed successfully"))
  }

  /**
   * `confirmProductionItem` for one item: the result or the exception it
   * throws, and the raw-material table afterwards.
   */
  function ConfirmItem(products: map<Code, Product>, rms: map<Code, RawMaterial>, lines: seq<RecipeLine>,
                       item: ProductionItemRequest): (o: (Result<ConfirmItemResult>, map<Code, RawMaterial>))
    ensures o.0.Err? ==> o.1 == rms
    ensures o.1.Keys == rms.Keys
  {
    if item.productCode !in products then
      (Err(NotFound("Product with code " + item.productCode + " not found", "PRODUCT_NOT_FOUND")), rms)
    else
      var associations := LinesOf(lines, item.productCode);
      if associations == [] then
        (Err(NotFound("No raw materials associated with product " + item.productCode,
                      "PRODUCT_RAW_MATERIAL_NOT_FOUND")), rms)
      else
        match CheckStock(associations, rms, item.quantity)
        case Err(f) => (Err(f), rms)
        case Ok(updates) => (Ok(SuccessResult(products[item.productCode], item.quantity)), ApplyStock(rms, updates))
  }

  /**
   * An item is confirmed exactly when its product exists, has recipe
   * lines, and the stock covers all of them; its result then names the
   * product, keeps the requested quantity and is worth value times quantity.
   */
  lemma ConfirmItemSucceedsIff(products: map<Code, Product>, rms: map<Code, RawMaterial>, lines: seq<RecipeLine>,
                               item: ProductionItemRequest)
    ensures var o := ConfirmItem(products, rms, lines, item);
      o.0.Ok? <==> item.productCode in products && LinesOf(lines, item.productCode) != []
                   && StockCovers(LinesOf(lines, item.productCode), rms, item.quantity)
    ensures var o := ConfirmItem(products, rms, lines, item);
      o.0.Ok? ==> o.0.value.success && o.0.value.quantity == item.quantity
                  && o.0.value.productName == products[item.productCode].name
                  && o.0.value.totalValue == products[item.productCode].value * item.quantity
  {
    if item.productCode in products && LinesOf(lines, item.productCode) != [] {
      CheckStockOkIff(LinesOf(lines, item.productCode), rms, item.quantity);
    }
  }

  /**
   * Why an item fails: its product is missing, the product has no recipe
   * lines, or one of its lines reports a missing raw material or a shortfall.
   */
  lemma ConfirmItemFailures(products: map<Code, Product>, rms: map<Code, RawMaterial>, lines: seq<RecipeLine>,
                            item: ProductionItemRequest)
    ensures var o := ConfirmItem(products, rms, lines, item);
      item.productCode !in products ==>
        o.0 == Err(NotFound("Product with code " + item.productCode + " not found", "PRODUCT_NOT_FOUND"))
    ensures var o := ConfirmItem(products, rms, lines, item);
      item.productCode in products && LinesOf(lines, item.productCode) == [] ==>
        o.0 == Err(NotFound("No raw materials associated with product " + item.productCode,
                            "PRODUCT_RAW_MATERIAL_NOT_FOUND"))
    ensures var o := ConfirmItem(products, rms, lines, item);
      var associations := LinesOf(lines, item.productCode);
      item.productCode in products && associations != [] && o.0.Err? ==>
        exists i :: 0 <= i < |associations| && LineFailure(associations[i], rms, item.quantity, o.0.failure)
  {
    CheckStockFailure(LinesOf(lines, item.productCode), rms, item.quantity);
  }

  /**
   * On success each raw material loses exactly what the product's lines
   * need of it (nothing if none names it); otherwise it keeps its stock.
   */
  lemma ConfirmItemStock(products: map<Code, Product>, rms: map<Code, RawMaterial>, lines: seq<RecipeLine>,
                         item: ProductionItemRequest, c: Code)
    requires UniquePairs(lines)
    requires c in rms
    ensures var o := ConfirmItem(products, rms, lines, item);
      var need := if o.0.Ok? then QuantityFor(LinesOf(lines, item.productCode), c) * item.quantity else 0;
      o.1[c] == rms[c].(stockQuantity := rms[c].stockQuantity - need)
  {
    var o := ConfirmItem(products, rms, lines, item);
    if o.0.Ok? {
      var associations := LinesOf(lines, item.productCode);
      LinesOfDistinctMaterials(lines, item.productCode);
      ApplyPlannedStock(associations, rms, item.quantity, c);
    }
  }

  /** Confirming an item never drives a valid raw material's stock below zero. */
  lemma ConfirmItemKeepsStockValid(products: map<Code, Product>, rms: map<Code, RawMaterial>, lines: seq<RecipeLine>,
                                   item: ProductionItemRequest, c: Code)
    requires UniquePairs(lines)
    requires c in rms && ValidRawMaterial(rms[c])
    ensures ValidRawMaterial(ConfirmItem(products, rms, lines, item).1[c])
  {
    var o := ConfirmItem(products, rms, lines, item);
    if o.0.Ok? {
      LinesOfDistinctMaterials(lines, item.productCode);
      ApplyPlannedStock(LinesOf(lines, item.productCode), rms, item.quantity, c);
    }
  }

  /** The message a failed item reports, by exception class. */
  function FailureMessage(f: Failure): string
  {
    match f
    case InsufficientStock(message, _, _, _) => message
    case Concurrency(message) => message
    case NotFound(message, _) => message
    case _ => "Failed to confirm production: " + f.message
  }

  /** The result recorded for an item whose confirmation threw `f`. */
  function FailedResult(products: map<Code, Product>, item: ProductionItemRequest, f: Failure): (r: ConfirmItemResult)
  {
    var name := if item.productCode in products then products[item.productCode].name else item.productCode;
    ConfirmItemResult(item.productCode, name, item.quantity, 0, false, Some(FailureMessage(f)))
  }

  /** `confirmProduction`: the response and the raw-material table after all items. */
  function ConfirmAll(products: map<Code, Product>, rms: map<Code, RawMaterial>, lines: seq<RecipeLine>,
                      items: seq<ProductionItemRequest>): (o: (ConfirmProductionResponse, map<Code, RawMaterial>))
    ensures o.1.Keys == rms.Keys
    decreases |items|
  {
    if items == [] then (ConfirmProductionResponse([], 0, 0, 0), rms)
    else
      var (response, before) := ConfirmAll(products, rms, lines, items[..|items| - 1]);
      var item := items[|items| - 1];
      (Record(response, ItemOutcome(products, before, lines, item)), ConfirmItem(products, before, lines, item).1)
  }

  /** How many results are successes. */
  function Successes(rs: seq<ConfirmItemResult>): nat
    decreases |rs|
  {
    if rs == [] then 0 else Successes(rs[..|rs| - 1]) + (if rs[|rs| - 1].success then 1 else 0)
  }

  /** The sum of the result totals. */
  function SumResults(rs: seq<ConfirmItemResult>): Amount
    decreases |rs|
  {
    if rs == [] then 0 else SumResults(rs[..|rs| - 1]) + rs[|rs| - 1].totalValue
  }

  /** Whether result `r` reports item `item` as `confirmProduction` promises. */
  predicate ReportsItem(products: map<Code, Product>, item: ProductionItemRequest, r: ConfirmItemResult)
  {
    r.productCode == item.productCode && r.quantity == item.quantity
    && (r.success ==> item.productCode in products
                      && r.productName == products[item.productCode].name
                      && r.totalValue == products[item.productCode].value * item.quantity)
    && (!r.success ==> r.totalValue == 0
                       && r.productName == (if item.productCode in products
                                            then products[item.productCode].name else item.productCode))
  }

  /** The result `confirmProduction` records for one item, success or failure. */
  function ItemOutcome(products: map<Code, Product>, rms: map<Code, RawMaterial>, lines: seq<RecipeLine>,
                       item: ProductionItemRequest): (r: ConfirmItemResult)
  {
    match ConfirmItem(products, rms, lines, item).0
    case Ok(result) => result
    case Err(f) => FailedResult(products, item, f)
  }

  lemma ItemOutcomeReports(products: map<Code, Product>, rms: map<Code, RawMaterial>, lines: seq<RecipeLine>,
                           item: ProductionItemRequest)
    requires KeyedProducts(products)
    ensures ReportsItem(products, item, ItemOutcome(products, rms, lines, item))
    ensures ItemOutcome(products, rms, lines, item).success <==> ConfirmItem(products, rms, lines, item).0.Ok?
  {
    ConfirmItemSucceedsIff(products, rms, lines, item);
  }

  /** The response after recording one more result. */
  function Record(response: ConfirmProductionResponse, r: ConfirmItemResult): (next: ConfirmProductionResponse)
  {
    ConfirmProductionResponse(response.items + [r], response.totalValue + r.totalValue,
                              response.successCount + (if r.success then 1 else 0),
                              response.failureCount + (if r.success then 0 else 1))
  }

  /** The batch over the first `k + 1` items extends the batch over the first `k` by item `k`. */
  lemma ConfirmAllStep(products: map<Code, Product>, rms: map<Code, RawMaterial>, lines: seq<RecipeLine>,
                       items: seq<ProductionItemRequest>, k: int)
    requires 0 <= k < |items|
    ensures var previous := ConfirmAll(products, rms, lines, items[..k]);
      ConfirmAll(products, rms, lines, items[..k + 1])
      == (Record(previous.0, ItemOutcome(products, previous.1, lines, items[k])),
          ConfirmItem(products, previous.1, lines, items[k]).1)
  {
    assert items[..k + 1][..k] == items[..k];
  }

  /**
   * What `confirmProduction` promises of a response to `items`: one result
   * per item, in item order, each reporting its item; the counts add up to
   * the number of items and count the successes; the total sums the
   * results, so only successful items contribute to it.
   */
  predicate Bookkept(products: map<Code, Product>, items: seq<ProductionItemRequest>, response: ConfirmProductionResponse)
  {
    |response.items| == |items|
    && (forall i :: 0 <= i < |items| ==> ReportsItem(products, items[i], response.items[i]))
    && response.successCount + response.failureCount == |items|
    && response.successCount == Successes(response.items)
    && response.totalValue == SumResults(response.items)
  }

  /** Recording the result of one more item keeps the bookkeeping. */
  lemma RecordKeepsBookkept(products: map<Code, Product>, items: seq<ProductionItemRequest>,
                            response: ConfirmProductionResponse, r: ConfirmItemResult)
    requires items != []
    requires Bookkept(products, items[..|items| - 1], response)
    requires ReportsItem(products, items[|items| - 1], r)
    ensures Bookkept(products, items, Record(response, r))
  {
    var next := Record(response, r);
    assert next.items[..|next.items| - 1] == response.items;
    forall i | 0 <= i < |items|
      ensures ReportsItem(products, items[i], next.items[i])
    {
      if i < |items| - 1 {
        assert items[i] == items[..|items| - 1][i] && next.items[i] == response.items[i];
      }
    }
  }

  lemma {:induction false} ConfirmAllBookkeeping(products: map<Code, Product>, rms: map<Code, RawMaterial>,
                                                 lines: seq<RecipeLine>, items: seq<ProductionItemRequest>)
    requires KeyedProducts(products)
    ensures Bookkept(products, items, ConfirmAll(products, rms, lines, items).0)
    decreases |items|
  {
    if items != [] {
      var prefix := items[..|items| - 1];
      var item := items[|items| - 1];
      ConfirmAllBookkeeping(products, rms, lines, prefix);
      var previous := ConfirmAll(products, rms, lines, prefix);
      ItemOutcomeReports(products, previous.1, lines, item);
      RecordKeepsBookkept(products, items, previous.0, ItemOutcome(products, previous.1, lines, item));
    }
  }

  /**
   * Later items see earlier deductions: over the whole batch each raw
   * material loses exactly what the confirmed items' lines need of it.
   */
  function BatchNeed(products: map<Code, Product>, rms: map<Code, RawMaterial>, lines: seq<RecipeLine>,
                     items: seq<ProductionItemRequest>, c: Code): Amount
    decreases |items|
  {
    if items == [] then 0
    else
      var prefix := items[..|items| - 1];
      var item := items[|items| - 1];
      var before := ConfirmAll(products, rms, lines, prefix).1;
      BatchNeed(products, rms, lines, prefix, c)
        + (if ConfirmItem(products, before, lines, item).0.Ok?
           then QuantityFor(LinesOf(lines, item.productCode), c) * item.quantity else 0)
  }

  lemma {:induction false} ConfirmAllStock(products: map<Code, Product>, rms: map<Code, RawMaterial>,
                                           lines: seq<RecipeLine>, items: seq<ProductionItemRequest>, c: Code)
    requires UniquePairs(lines)
    requires c in rms
    ensures ConfirmAll(products, rms, lines, items).1[c]
         == rms[c].(stockQuantity := rms[c].stockQuantity - BatchNeed(products, rms, lines, items, c))
    decreases |items|
  {
    if items != [] {
      var prefix := items[..|items| - 1];
      var item := items[|items| - 1];
      ConfirmAllStock(products, rms, lines, prefix, c);
      var before := ConfirmAll(products, rms, lines, prefix).1;
      ConfirmItemStock(products, before, lines, item, c);
    }
  }

  /** No batch drives a valid raw material's stock below zero. */
  lemma {:induction false} ConfirmAllKeepsStockValid(products: map<Code, Product>, rms: map<Code, RawMaterial>,
                                                     lines: seq<RecipeLine>, items: seq<ProductionItemRequest>, c: Code)
    requires UniquePairs(lines)
    requires c in rms && ValidRawMaterial(rms[c])
    ensures ValidRawMaterial(ConfirmAll(products, rms, lines, items).1[c])
    decreases |items|
  {
    if items != [] {
      var prefix := items[..|items| - 1];
      ConfirmAllKeepsStockValid(products, rms, lines, prefix, c);
      ConfirmItemKeepsStockValid(products, ConfirmAll(products, rms, lines, prefix).1, lines, items[|items| - 1], c);
    }
  }
}
