/**
 * `ProductService`: reads and writes of the PRODUCTS table. Persisting
 * runs the entity's constraints, so a change they reject fails with a
 * constraint violation and leaves the table as it was.
 */
module ProductService {
  import opened Outcomes
  import opened Entities
  import opened ProductDto
  import opened Paging
  import opened Catalog
  import CodeGenerator

  function NotFoundMessage(code: Code): string
  {
    "Product with code " + code + " not found"
  }

  /** The recipe lines that survive deleting product `code`. */
  function NotOf(code: Code): RecipeLine -> bool
  {
    (l: RecipeLine) => l.productCode != code
  }

  /** `getByCode`. */
  method GetByCode(db: Store, code: Code) returns (r: Result<ProductView>)
    ensures r.Ok? <==> code in db.products
    ensures r.Ok? ==> r.value == ToView(db.products[code])
    ensures r.Err? ==> r.failure == NotFoundDefault(NotFoundMessage(code))
  {
    if code !in db.products {
      return Err(NotFoundDefault(NotFoundMessage(code)));
    }
    r := Ok(ToView(db.products[code]));
  }

  /** `createWithCode`: insert the product the request describes under `code`. */
  method CreateWithCode(db: Store, request: CreateProductRequest, code: Code) returns (r: Result<ProductView>)
    requires db.Valid() && code !in db.products
    modifies db
    ensures db.Valid()
    ensures db.rawMaterials == old(db.rawMaterials) && db.recipeLines == old(db.recipeLines)
    ensures db.productions == old(db.productions)
    ensures r.Ok? <==> ValidProduct(FromCreate(code, request))
    ensures r.Ok? ==> db.products == old(db.products)[code := FromCreate(code, request)]
                      && r.value == ToView(FromCreate(code, request))
    ensures r.Err? ==> r.failure.ConstraintViolation? && db.products == old(db.products)
  {
    var product := FromCreate(code, request);
    if !ValidProduct(product) {
      return Err(ConstraintViolation("Product violates its constraints"));
    }
    db.products := db.products[code := product];
    r := Ok(ToView(product));
  }

  /**
   * `create`: the code comes from the sequence's next value; if a product
   * already has it, one more value is drawn, and a second collision is a
   * BadRequest with nothing stored.
   */
  method Create(db: Store, request: CreateProductRequest, nextValue: int, retryValue: int)
    returns (r: Result<ProductView>)
    requires db.Valid()
    modifies db
    ensures db.Valid()
    ensures db.rawMaterials == old(db.rawMaterials) && db.recipeLines == old(db.recipeLines)
    ensures db.productions == old(db.productions)
    ensures var code := if CodeGenerator.ProductCode(nextValue) !in old(db.products)
                        then CodeGenerator.ProductCode(nextValue) else CodeGenerator.ProductCode(retryValue);
      if code in old(db.products) then
        r == Err(BadRequest("Unable to generate unique product code")) && db.products == old(db.products)
      else if ValidProduct(FromCreate(code, request)) then
        r == Ok(ToView(FromCreate(code, request))) && db.products == old(db.products)[code := FromCreate(code, request)]
      else
        r.Err? && r.failure.ConstraintViolation? && db.products == old(db.products)
  {
    var code := CodeGenerator.ProductCode(nextValue);
    if code in db.products {
      var retryCode := CodeGenerator.ProductCode(retryValue);
      if retryCode in db.products {
        return Err(BadRequest("Unable to generate unique product code"));
      }
      r := CreateWithCode(db, request, retryCode);
      return;
    }
    r := CreateWithCode(db, request, code);
  }

  /** `update`: every field the request carries replaces the stored one; the code never changes. */
  method Update(db: Store, code: Code, request: UpdateProductRequest) returns (r: Result<ProductView>)
    requires db.Valid()
    modifies db
    ensures db.Valid()
    ensures db.rawMaterials == old(db.rawMaterials) && db.recipeLines == old(db.recipeLines)
    ensures db.productions == old(db.productions)
    ensures code !in old(db.products) ==>
      r == Err(NotFoundDefault(NotFoundMessage(code))) && db.products == old(db.products)
    ensures code in old(db.products) ==>
      var updated := ApplyUpdate(old(db.products)[code], request);
      if ValidProduct(updated) then r == Ok(ToView(updated)) && db.products == old(db.products)[code := updated]
      else r.Err? && r.failure.ConstraintViolation? && db.products == old(db.products)
  {
    if code !in db.products {
      return Err(NotFoundDefault(NotFoundMessage(code)));
    }
    var product := db.products[code];
    var updated := ApplyUpdate(product, request);
    if !ValidProduct(updated) {
      return Err(ConstraintViolation("Product violates its constraints"));
    }
    db.products := db.products[code := updated];
    r := Ok(ToView(updated));
  }

  /** `delete`: the product goes, and its recipe lines with it. */
  method Delete(db: Store, code: Code) returns (r: Result<()>)
    requires db.Valid()
    modifies db
    ensures db.Valid()
    ensures db.rawMaterials == old(db.rawMaterials) && db.productions == old(db.productions)
    ensures code !in old(db.products) ==>
      r == Err(NotFoundDefault(NotFoundMessage(code)))
      && db.products == old(db.products) && db.recipeLines == old(db.recipeLines)
    ensures code in old(db.products) ==>
      r == Ok(()) && db.products == old(db.products) - {code}
      && db.recipeLines == Filter(old(db.recipeLines), NotOf(code))
  {
    if code !in db.products {
      return Err(NotFoundDefault(NotFoundMessage(code)));
    }
    var keep := NotOf(code);
    FilterKeepsLinesValid(db.recipeLines, keep, db.products - {code}, db.rawMaterials);
    db.products := db.products - {code};
    db.recipeLines := Filter(db.recipeLines, keep);
    r := Ok(());
  }

  /**
   * `getAllPaginated` over `rows`, the table as the ordered query lists it:
   * the requested page's rows, as many as the table has from the page's
   * first offset up to the page size, with the whole table's count.
   */
  method GetAllPaginated(db: Store, rows: seq<Product>, request: PageRequest) returns (r: PageResponse<ProductView>)
    requires request.page >= 0 && request.size >= 1
    requires ListsProducts(rows, db.products)
    ensures r.totalElements == |db.products| && r.page == request.page && r.size == request.size
    ensures |r.content| <= request.size
    ensures |r.content| ==
      if request.page * request.size < |db.products| then Min(request.size, |db.products| - request.page * request.size) else 0
    ensures forall i :: 0 <= i < |r.content| ==>
      request.page * request.size + i < |rows| && r.content[i] == ToView(rows[request.page * request.size + i])
    ensures r == Of(r.content, request.page, request.size, |db.products|)
  {
    var slice := PageSlice(rows, request.page, request.size);
    var content := seq(|slice|, i requires 0 <= i < |slice| => ToView(slice[i]));
    r := Of(content, request.page, request.size, |db.products|);
  }

  /** Paging through a listing of the table reaches every stored product, whatever the page size. */
  lemma EveryProductOnAPage(rows: seq<Product>, ps: map<Code, Product>, size: int, c: Code)
    requires size >= 1 && ListsProducts(rows, ps) && c in ps
    ensures exists page, i :: page >= 0 && 0 <= i < |PageSlice(rows, page, size)| && PageSlice(rows, page, size)[i] == ps[c]
  {
    ListedProductsCoverTable(rows, ps, c);
    var k :| 0 <= k < |rows| && rows[k] == ps[c];
    var page, i := PageSliceCovers(rows, size, k);
  }
}
