/**
 * The decision logic of the catalog product handlers. `skus` is the set of SKUs of the
 * products in storage and `categories` the set of category ids.
 */
module ProductApi {
  import opened Wrappers
  import opened Text
  import opened Responses
  import opened Products

  /** The currency a product gets when the request names none. */
  const DefaultCurrency := "USD"

  /**
   * `CreateProduct`: binding, the request validator, the SKU conflict, the category lookup
   * when one is named, then the new record: the request's fields, "USD" for an empty
   * currency, and the active flag only when supplied.
   */
  method CreateProduct(req: CreateProductRequest, skus: set<string>, categories: set<nat>)
    returns (r: Result<Product, ApiError>)
    ensures !CreateProductRequestBinds(req) ==> r == Failure(InvalidBody)
    ensures CreateProductRequestBinds(req) && ValidateCreateProductRequest(req).Fail? ==>
      r == Failure(BadRequest(ValidateCreateProductRequest(req).error))
    ensures (CreateProductRequestBinds(req) && ValidateCreateProductRequest(req).Pass?) ==>
      (r == Failure(Conflict("Product with this SKU already exists")) <==> req.sku in skus)
    ensures (CreateProductRequestBinds(req) && ValidateCreateProductRequest(req).Pass? && req.sku !in skus
      && req.categoryId.Some? && req.categoryId.value !in categories) ==>
      r == Failure(BadRequest("Category not found"))
    ensures r.Success? <==>
      && CreateProductRequestBinds(req) && ValidateCreateProductRequest(req).Pass?
      && req.sku !in skus
      && (req.categoryId.Some? ==> req.categoryId.value in categories)
    ensures r.Success? ==>
      && r.value.id == 0
      && r.value.sku == req.sku && r.value.name == req.name
      && r.value.description == req.description && r.value.price == req.price
      && r.value.categoryId == req.categoryId
      && r.value.currency == (if req.currency == "" then DefaultCurrency else req.currency)
      && r.value.isActive == (if req.isActive.Some? then req.isActive.value else false)
    ensures r.Success? ==> r.value.price > 0.0 && r.value.sku !in skus
    ensures r.Success? ==>
      (ValidateProduct(r.value).Pass? <==> req.currency == "" || ByteLen(req.currency) == 3)
  {
    if !CreateProductRequestBinds(req) {
      return Failure(InvalidBody);
    }
    CreateProductRequestBindsMeaning(req);
    var check := ValidateCreateProductRequest(req);
    if check.Fail? {
      return Failure(BadRequest(check.error));
    }
    if req.sku in skus {
      return Failure(Conflict("Product with this SKU already exists"));
    }
    if req.categoryId.Some? && req.categoryId.value !in categories {
      return Failure(BadRequest("Category not found"));
    }
    var product := Product(0, req.sku, req.name, req.description, req.price, req.currency,
                           req.categoryId, false);
    if product.currency == "" {
      product := product.(currency := DefaultCurrency);
    }
    if req.isActive.Some? {
      product := product.(isActive := req.isActive.value);
    }
    assert IsAscii(DefaultCurrency);
    AsciiByteLen(DefaultCurrency);
    r := Success(product);
  }

  /**
   * Binding refuses a zero price on create although the record validator accepts one, and
   * an update can set it.
   */
  lemma ZeroPriceOnlyThroughUpdate(req: CreateProductRequest, p: Product)
    requires req.price == 0.0
    requires ValidateProduct(p).Pass?
    ensures !CreateProductRequestBinds(req)
    ensures ValidateProduct(p.(price := 0.0)).Pass?
    ensures PatchProduct(p, UpdateProductRequest("", "", Some(0.0), "", None, None)).price == 0.0
  {
    CreateProductRequestBindsMeaning(req);
  }

  /**
   * The field rule of `UpdateProduct`: a non-empty name, description or currency and a
   * supplied price, category or active flag overwrite the stored value.
   */
  function PatchProduct(p: Product, req: UpdateProductRequest): Product {
    p.(
      name := if req.name != "" then req.name else p.name,
      description := if req.description != "" then req.description else p.description,
      price := if req.price.Some? then req.price.value else p.price,
      currency := if req.currency != "" then req.currency else p.currency,
      categoryId := if req.categoryId.Some? then req.categoryId else p.categoryId,
      isActive := if req.isActive.Some? then req.isActive.value else p.isActive)
  }

  /** `UpdateProduct`: not found, the request validator, the category lookup, then the patch. */
  method UpdateProduct(found: Option<Product>, req: UpdateProductRequest, categories: set<nat>)
    returns (r: Result<Product, ApiError>)
    ensures found.None? ==> r == Failure(NotFound("Product not found"))
    ensures found.Some? && ValidateUpdateProductRequest(req).Fail? ==>
      r == Failure(BadRequest(ValidateUpdateProductRequest(req).error))
    ensures (found.Some? && ValidateUpdateProductRequest(req).Pass?
      && req.categoryId.Some? && req.categoryId.value !in categories) ==>
      r == Failure(BadRequest("Category not found"))
    ensures r.Success? <==>
      found.Some? && ValidateUpdateProductRequest(req).Pass?
      && (req.categoryId.Some? ==> req.categoryId.value in categories)
    ensures r.Success? ==> r.value == PatchProduct(found.value, req)
  {
    if found.None? {
      return Failure(NotFound("Product not found"));
    }
    var product := found.value;
    var check := ValidateUpdateProductRequest(req);
    if check.Fail? {
      return Failure(BadRequest(check.error));
    }
    if req.categoryId.Some? && req.categoryId.value !in categories {
      return Failure(BadRequest("Category not found"));
    }
    if req.name != "" {
      product := product.(name := req.name);
    }
    if req.description != "" {
      product := product.(description := req.description);
    }
    if req.price.Some? {
      product := product.(price := req.price.value);
    }
    if req.currency != "" {
      product := product.(currency := req.currency);
    }
    if req.categoryId.Some? {
      product := product.(categoryId := req.categoryId);
    }
    if req.isActive.Some? {
      product := product.(isActive := req.isActive.value);
    }
    r := Success(product);
  }

  /** An update never changes the id or the SKU; with nothing supplied it changes nothing. */
  lemma PatchProductKeepsIdentity(p: Product, req: UpdateProductRequest)
    ensures PatchProduct(p, req).id == p.id && PatchProduct(p, req).sku == p.sku
    ensures PatchProduct(p, UpdateProductRequest("", "", None, "", None, None)) == p
    ensures PatchProduct(PatchProduct(p, req), req) == PatchProduct(p, req)
  {
  }

  /**
   * A patch that passes the update validator keeps a valid product valid unless it brings a
   * whitespace-only name, which the update validator lets through.
   */
  lemma ValidatedPatchKeepsProductValid(p: Product, req: UpdateProductRequest)
    requires ValidateProduct(p).Pass? && ValidateUpdateProductRequest(req).Pass?
    ensures ValidateProduct(PatchProduct(p, req)).Pass? <==> (req.name == "" || !IsBlank(req.name))
  {
  }
}
