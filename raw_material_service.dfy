/**
 * `RawMaterialService`: reads and writes of the RAW_MATERIALS table. Persisting
 * runs the entity's constraints, so a change they reject fails with a
 * constraint violation and leaves the table as it was.
 */
module RawMaterialService {
  import opened Outcomes
  import opened Entities
  import opened RawMaterialDto
  import opened Paging
  import opened Catalog
  import CodeGenerator

  function NotFoundMessage(code: Code): string
  {
    "Raw material with code " + code + " not found"
  }

  /** The recipe lines that survive deleting raw material `code`. */
  function NotOf(code: Code): RecipeLine -> bool
  {
    (l: RecipeLine) => l.rawMaterialCode != code
  }

  /** `getByCode`. */
  method GetByCode(db: Store, code: Code) returns (r: Result<RawMaterialView>)
    ensures r.Ok? <==> code in db.rawMaterials
    ensures r.Ok? ==> r.value == ToView(db.rawMaterials[code])
    ensures r.Err? ==> r.failure == NotFoundDefault(NotFoundMessage(code))
  {
    if code !in db.rawMaterials {
      return Err(NotFoundDefault(NotFoundMessage(code)));
    }
    r := Ok(ToView(db.rawMaterials[code]));
  }

  /** `createWithCode`: insert the raw material the request describes under `code`. */
  method CreateWithCode(db: Store, request: CreateRawMaterialRequest, code: Code) returns (r: Result<RawMaterialView>)
    requires db.Valid() && code !in db.rawMaterials
    modifies db
    ensures db.Valid()
    ensures db.products == old(db.products) && db.recipeLines == old(db.recipeLines)
    ensures db.productions == old(db.productions)
    ensures r.Ok? <==> ValidRawMaterial(FromCreate(code, request))
    ensures r.Ok? ==> db.rawMaterials == old(db.rawMaterials)[code := FromCreate(code, request)]
                      && r.value == ToView(FromCreate(code, request))
    ensures r.Err? ==> r.failure.ConstraintViolation? && db.rawMaterials == old(db.rawMaterials)
  {
    var material := FromCreate(code, request);
    if !ValidRawMaterial(material) {
      return Err(ConstraintViolation("Raw material violates its constraints"));
    }
    db.rawMaterials := db.rawMaterials[code := material];
    r := Ok(ToView(material));
  }

  /**
   * `create`: the code comes from the sequence's next value; if a raw material
   * already has it, one more value is drawn, and a second collision is a
   * BadRequest with nothing stored.
   */
  method Create(db: Store, request: CreateRawMaterialRequest, nextValue: int, retryValue: int)
    returns (r: Result<RawMaterialView>)
    requires db.Valid()
    modifies db
    ensures db.Valid()
    ensures db.products == old(db.products) && db.recipeLines == old(db.recipeLines)
    ensures db.productions == old(db.productions)
    ensures var code := if CodeGenerator.RawMaterialCode(nextValue) !in old(db.rawMaterials)
                        then CodeGenerator.RawMaterialCode(nextValue) else CodeGenerator.RawMaterialCode(retryValue);
      if code in old(db.rawMaterials) then
        r == Err(BadRequest("Unable to generate unique raw material code")) && db.rawMaterials == old(db.rawMaterials)
      else if ValidRawMaterial(FromCreate(code, request)) then
        r == Ok(ToView(FromCreate(code, request))) && db.rawMaterials == old(db.rawMaterials)[code := FromCreate(code, request)]
      else
        r.Err? && r.failure.ConstraintViolation? && db.rawMaterials == old(db.rawMaterials)
  {
    var code := CodeGenerator.RawMaterialCode(nextValue);
    if code in db.rawMaterials {
      var retryCode := CodeGenerator.RawMaterialCode(retryValue);
      if retryCode in db.rawMaterials {
        return Err(BadRequest("Unable to generate unique raw material code"));
      }
      r := CreateWithCode(db, request, retryCode);
      return;
    }
    r := CreateWithCode(db, request, code);
  }

  /** `update`: every field the request carries replaces the stored one; the code never changes. */
  method Update(db: Store, code: Code, request: UpdateRawMaterialRequest) returns (r: Result<RawMaterialView>)
    requires db.Valid()
    modifies db
    ensures db.Valid()
    ensures db.products == old(db.products) && db.recipeLines == old(db.recipeLines)
    ensures db.productions == old(db.productions)
    ensures code !in old(db.rawMaterials) ==>
      r == Err(NotFoundDefault(NotFoundMessage(code))) && db.rawMaterials == old(db.rawMaterials)
    ensures code in old(db.rawMaterials) ==>
      var updated := ApplyUpdate(old(db.rawMaterials)[code], request);
      if ValidRawMaterial(updated) then r == Ok(ToView(updated)) && db.rawMaterials == old(db.rawMaterials)[code := updated]
      else r.Err? && r.failure.ConstraintViolation? && db.rawMaterials == old(db.rawMaterials)
  {
    if code !in db.rawMaterials {
      return Err(NotFoundDefault(NotFoundMessage(code)));
    }
    var material := db.rawMaterials[code];
    var updated := ApplyUpdate(material, request);
    if !ValidRawMaterial(updated) {
      return Err(ConstraintViolation("Raw material violates its constraints"));
    }
    db.rawMaterials := db.rawMaterials[code := updated];
    r := Ok(ToView(updated));
  }

  /** `delete`: the raw material goes, and its recipe lines with it. */
  method Delete(db: Store, code: Code) returns (r: Result<()>)
    requires db.Valid()
    modifies db
    ensures db.Valid()
    ensures db.products == old(db.products) && db.productions == old(db.productions)
    ensures code !in old(db.rawMaterials) ==>
      r == Err(NotFoundDefault(NotFoundMessage(code)))
      && db.rawMaterials == old(db.rawMaterials) && db.recipeLines == old(db.recipeLines)
    ensures code in old(db.rawMaterials) ==>
      r == Ok(()) && db.rawMaterials == old(db.rawMaterials) - {code}
      && db.recipeLines == Filter(old(db.recipeLines), NotOf(code))
  {
    if code !in db.rawMaterials {
      return Err(NotFoundDefault(NotFoundMessage(code)));
    }
    var keep := NotOf(code);
    FilterKeepsLinesValid(db.recipeLines, keep, db.products, db.rawMaterials - {code});
    db.rawMaterials := db.rawMaterials - {code};
    db.recipeLines := Filter(db.recipeLines, keep);
    r := Ok(());
  }

  /**
   * `getAllPaginated` over `rows`, the table as the ordered query lists it:
   * the requested page's rows, as many as the table has from the page's
   * first offset up to the page size, with the whole table's count.
   */
  method GetAllPaginated(db: Store, rows: seq<RawMaterial>, request: PageRequest) returns (r: PageResponse<RawMaterialView>)
    requires request.page >= 0 && request.size >= 1
    requires ListsRawMaterials(rows, db.rawMaterials)
    ensures r.totalElements == |db.rawMaterials| && r.page == request.page && r.size == request.size
    ensures |r.content| <= request.size
    ensures |r.content| ==
      if request.page * request.size < |db.rawMaterials| then Min(request.size, |db.rawMaterials| - request.page * request.size) else 0
    ensures forall i :: 0 <= i < |r.content| ==>
      request.page * request.size + i < |rows| && r.content[i] == ToView(rows[request.page * request.size + i])
    ensures r == Of(r.content, request.page, request.size, |db.rawMaterials|)
  {
    var slice := PageSlice(rows, request.page, request.size);
    var content := seq(|slice|, i requires 0 <= i < |slice| => ToView(slice[i]));
    r := Of(content, request.page, request.size, |db.rawMaterials|);
  }

  /** Paging through a listing of the table reaches every stored raw material, whatever the page size. */
  lemma EveryRawMaterialOnAPage(rows: seq<RawMaterial>, rs: map<Code, RawMaterial>, size: int, c: Code)
    requires size >= 1 && ListsRawMaterials(rows, rs) && c in rs
    ensures exists page, i :: page >= 0 && 0 <= i < |PageSlice(rows, page, size)| && PageSlice(rows, page, size)[i] == rs[c]
  {
    ListedRawMaterialsCoverTable(rows, rs, c);
    var k :| 0 <= k < |rows| && rows[k] == rs[c];
    var page, i := PageSliceCovers(rows, size, k);
  }
}
