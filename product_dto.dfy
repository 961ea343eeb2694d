/** The product records exchanged over HTTP and their validation rules. */
module ProductDto {
  import opened Outcomes
  import opened Entities

  datatype ProductView = ProductView(code: Code, name: string, value: Amount)

  /** `Product.toDto()`. */
  function ToView(p: Product): (v: ProductView)
    ensures v.code == p.code && v.name == p.name && v.value == p.value
  {
    ProductView(p.code, p.name, p.value)
  }

  datatype CreateProductRequest = CreateProductRequest(name: string, value: Amount)

  /** `@NotBlank @Size(1, 255)` on the name; `@NotNull @Positive @DecimalMin("0.01")` on the value. */
  predicate ValidCreate(r: CreateProductRequest)
  {
    NotBlank(r.name) && 1 <= |r.name| <= 255 && r.value > 0 && r.value >= 1
  }

  /** Both fields may be absent; a null field passes every constraint. */
  datatype UpdateProductRequest = UpdateProductRequest(name: Option<string>, value: Option<Amount>)

  predicate ValidUpdate(r: UpdateProductRequest)
  {
    (r.name.Some? ==> 1 <= |r.name.value| <= 255)
    && (r.value.Some? ==> r.value.value > 0 && r.value.value >= 1)
  }

  /** The product `createWithCode` builds from a request and a code. */
  function FromCreate(code: Code, r: CreateProductRequest): (p: Product)
    ensures p.code == code && p.name == r.name && p.value == r.value
  {
    Product(code, r.name, r.value)
  }

  /** `update`: every present field replaces the stored one; the code never changes. */
  function ApplyUpdate(p: Product, r: UpdateProductRequest): (q: Product)
    ensures q.code == p.code
    ensures q.name == r.name.GetOr(p.name) && q.value == r.value.GetOr(p.value)
  {
    p.(name := r.name.GetOr(p.name), value := r.value.GetOr(p.value))
  }

  /** A valid create request always yields a product that passes its entity constraints. */
  lemma ValidCreateGivesValidProduct(code: Code, r: CreateProductRequest)
    requires NotBlank(code) && ValidCreate(r)
    ensures ValidProduct(FromCreate(code, r))
  {
  }

  /**
   * The update request has no `@NotBlank` on the name, so a valid update
   * can still carry a blank name that the entity then rejects.
   */
  lemma BlankUpdateNamePassesRequestValidation(p: Product)
    ensures var r := UpdateProductRequest(Some(" "), None);
      ValidUpdate(r) && !ValidProduct(ApplyUpdate(p, r))
  {
    var q := ApplyUpdate(p, UpdateProductRequest(Some(" "), None));
    assert q.name == " ";
  }

  /** Updating a valid product with a valid request whose name is absent or non-blank keeps it valid. */
  lemma ValidUpdateKeepsValidProduct(p: Product, r: UpdateProductRequest)
    requires ValidProduct(p) && ValidUpdate(r)
    requires r.name.Some? ==> NotBlank(r.name.value)
    ensures ValidProduct(ApplyUpdate(p, r))
  {
  }
}
