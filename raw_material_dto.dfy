/** The raw-material records exchanged over HTTP and their validation rules. */
module RawMaterialDto {
  import opened Outcomes
  import opened Entities

  /** The output record: exactly code, name and stock quantity. */
  datatype RawMaterialView = RawMaterialView(code: Code, name: string, stockQuantity: Amount)

  /** `RawMaterial.toDto()`. */
  function ToView(r: RawMaterial): (v: RawMaterialView)
    ensures v.code == r.code && v.name == r.name && v.stockQuantity == r.stockQuantity
  {
    RawMaterialView(r.code, r.name, r.stockQuantity)
  }

  datatype CreateRawMaterialRequest = CreateRawMaterialRequest(name: string, stockQuantity: Amount)

  /** `@NotBlank @Size(1, 255)` on the name; `@NotNull @PositiveOrZero @DecimalMin("0.0")` on the stock. */
  predicate ValidCreate(r: CreateRawMaterialRequest)
  {
    NotBlank(r.name) && 1 <= |r.name| <= 255 && r.stockQuantity >= 0
  }

  datatype UpdateRawMaterialRequest = UpdateRawMaterialRequest(name: Option<string>, stockQuantity: Option<Amount>)

  predicate ValidUpdate(r: UpdateRawMaterialRequest)
  {
    (r.name.Some? ==> 1 <= |r.name.value| <= 255)
    && (r.stockQuantity.Some? ==> r.stockQuantity.value >= 0)
  }

  function FromCreate(code: Code, r: CreateRawMaterialRequest): (m: RawMaterial)
    ensures m.code == code && m.name == r.name && m.stockQuantity == r.stockQuantity
  {
    RawMaterial(code, r.name, r.stockQuantity)
  }

  function ApplyUpdate(m: RawMaterial, r: UpdateRawMaterialRequest): (n: RawMaterial)
    ensures n.code == m.code
    ensures n.name == r.name.GetOr(m.name) && n.stockQuantity == r.stockQuantity.GetOr(m.stockQuantity)
  {
    m.(name := r.name.GetOr(m.name), stockQuantity := r.stockQuantity.GetOr(m.stockQuantity))
  }

  lemma ValidCreateGivesValidRawMaterial(code: Code, r: CreateRawMaterialRequest)
    requires NotBlank(code) && ValidCreate(r)
    ensures ValidRawMaterial(FromCreate(code, r))
  {
  }

  /** As for products, a valid update may carry a blank name that the entity rejects. */
  lemma BlankUpdateNamePassesRequestValidation(m: RawMaterial)
    ensures var r := UpdateRawMaterialRequest(Some(" "), None);
      ValidUpdate(r) && !ValidRawMaterial(ApplyUpdate(m, r))
  {
    var n := ApplyUpdate(m, UpdateRawMaterialRequest(Some(" "), None));
    assert n.name == " ";
  }
}
