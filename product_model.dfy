/**
 * The catalog product record, its status names, and the validators of the record and of the
 * create and update requests. Prices are Go `float64`; only their comparisons with 0 matter
 * here, so they are `real`.
 */
module Products {
  import opened Wrappers
  import opened Text
  import opened Binding

  /** A stored product; `sku` is unique in storage. */
  datatype Product = Product(
    id: nat,
    sku: string,
    name: string,
    description: string,
    price: real,
    currency: string,
    categoryId: Option<nat>,
    isActive: bool)

  const ProductStatusActive := "active"
  const ProductStatusInactive := "inactive"
  const ProductStatusDiscontinued := "discontinued"

  /** `IsValidProductStatus`: the switch over the three status constants. */
  function IsValidProductStatus(status: string): (ok: bool)
    ensures ok ==> 6 <= |status| <= 12
  {
    status == ProductStatusActive || status == ProductStatusInactive || status == ProductStatusDiscontinued
  }

  /** There are three distinct statuses; the match is case-sensitive and exact. */
  lemma ProductStatusesExactly()
    ensures |{ProductStatusActive, ProductStatusInactive, ProductStatusDiscontinued}| == 3
    ensures IsValidProductStatus(ProductStatusActive) && IsValidProductStatus(ProductStatusInactive)
      && IsValidProductStatus(ProductStatusDiscontinued)
    ensures !IsValidProductStatus("Active") && !IsValidProductStatus("") && !IsValidProductStatus("active ")
  {
    assert "Active"[0] != "active"[0];
    assert ProductStatusActive[0] == 'a' && ProductStatusInactive[0] == 'i' && ProductStatusDiscontinued[0] == 'd';
  }

  /** `Product.Validate`: seven checks, in the order the source makes them. */
  function ValidateProduct(p: Product): (r: Outcome<string>)
    ensures r.Pass? <==>
      && !IsBlank(p.name) && ByteLen(p.name) <= 200
      && !IsBlank(p.sku) && ByteLen(p.sku) <= 50
      && p.price >= 0.0
      && ByteLen(p.description) <= 1000
      && (p.currency == "" || ByteLen(p.currency) == 3)
  {
    if IsBlank(p.name) then Fail("product name is required")
    else if ByteLen(p.name) > 200 then Fail("product name cannot exceed 200 characters")
    else if IsBlank(p.sku) then Fail("product SKU is required")
    else if ByteLen(p.sku) > 50 then Fail("product SKU cannot exceed 50 characters")
    else if p.price < 0.0 then Fail("product price cannot be negative")
    else if ByteLen(p.description) > 1000 then Fail("product description cannot exceed 1000 characters")
    else if p.currency != "" && ByteLen(p.currency) != 3 then Fail("currency must be a 3-letter code")
    else Pass
  }

  /** A free product without a currency is a valid product; a four-letter currency is not. */
  lemma ZeroPriceAndNoCurrencyPass(p: Product)
    requires ValidateProduct(p).Pass?
    ensures ValidateProduct(p.(price := 0.0, currency := "")).Pass?
    ensures ValidateProduct(p.(currency := "EURO")) == Fail("currency must be a 3-letter code")
  {
    assert IsAscii("EURO");
    AsciiByteLen("EURO");
  }

  datatype CreateProductRequest = CreateProductRequest(
    sku: string,
    name: string,
    description: string,
    price: real,
    currency: string,
    categoryId: Option<nat>,
    isActive: Option<bool>)

  datatype UpdateProductRequest = UpdateProductRequest(
    name: string,
    description: string,
    price: Option<real>,
    currency: string,
    categoryId: Option<nat>,
    isActive: Option<bool>)

  /** The binding tags of `CreateProductRequest`. */
  predicate CreateProductRequestBinds(r: CreateProductRequest) {
    && Holds([Required], Str(r.sku), NoEmail)
    && Holds([Required], Str(r.name), NoEmail)
    && Holds([Required, Min(0)], Float(r.price), NoEmail)
  }

  /**
   * A create request binds exactly when it has a SKU, a name and a positive price: `required`
   * rejects the zero price that `min=0` alone would allow.
   */
  lemma CreateProductRequestBindsMeaning(r: CreateProductRequest)
    ensures CreateProductRequestBinds(r) <==> r.sku != "" && r.name != "" && r.price > 0.0
  {
    HoldsOne(Required, Str(r.sku), NoEmail);
    HoldsOne(Required, Str(r.name), NoEmail);
    HoldsTwo(Required, Min(0), Float(r.price), NoEmail);
  }

  /**
   * `CreateProductRequest.Validate`: the three presence and sign checks come before the
   * three length checks; the currency is not checked.
   */
  function ValidateCreateProductRequest(r: CreateProductRequest): (o: Outcome<string>)
    ensures o.Pass? <==>
      && !IsBlank(r.name) && !IsBlank(r.sku) && r.price >= 0.0
      && ByteLen(r.name) <= 200 && ByteLen(r.sku) <= 50 && ByteLen(r.description) <= 1000
  {
    if IsBlank(r.name) then Fail("product name is required")
    else if IsBlank(r.sku) then Fail("product SKU is required")
    else if r.price < 0.0 then Fail("product price cannot be negative")
    else if ByteLen(r.name) > 200 then Fail("product name cannot exceed 200 characters")
    else if ByteLen(r.sku) > 50 then Fail("product SKU cannot exceed 50 characters")
    else if ByteLen(r.description) > 1000 then Fail("product description cannot exceed 1000 characters")
    else Pass
  }

  /**
   * The two validators report in different orders: with an over-long name and a blank SKU
   * the request validator reports the SKU and the record validator the name.
   */
  lemma ValidatorOrdersDiffer(name: string)
    requires IsAscii(name) && |name| == 201 && !IsBlank(name)
    ensures ValidateCreateProductRequest(CreateProductRequest(" ", name, "", 1.0, "", None, None))
      == Fail("product SKU is required")
    ensures ValidateProduct(Product(0, " ", name, "", 1.0, "", None, true))
      == Fail("product name cannot exceed 200 characters")
  {
    AsciiByteLen(name);
    assert IsSpace(" "[0]);
  }

  /** `UpdateProductRequest.Validate`: every field may be absent; supplied ones are bounded. */
  function ValidateUpdateProductRequest(r: UpdateProductRequest): (o: Outcome<string>)
    ensures o.Pass? <==>
      && (r.name == "" || ByteLen(r.name) <= 200)
      && ByteLen(r.description) <= 1000
      && (r.price.Some? ==> r.price.value >= 0.0)
      && (r.currency == "" || ByteLen(r.currency) == 3)
  {
    if r.name != "" && ByteLen(r.name) > 200 then Fail("product name cannot exceed 200 characters")
    else if ByteLen(r.description) > 1000 then Fail("product description cannot exceed 1000 characters")
    else if r.price.Some? && r.price.value < 0.0 then Fail("product price cannot be negative")
    else if r.currency != "" && ByteLen(r.currency) != 3 then Fail("currency must be a 3-letter code")
    else Pass
  }
}
