/** The product-id path parameter. */
module ProductIds {
  import opened Wrappers
  import opened Text

  datatype ProductId = ProductId(inner: string)

  /** `ProductId::from_param`: accepted when every character is an ASCII letter
      or digit (the empty parameter included); a rejection hands it back. */
  function FromParam(param: string): (r: Result<ProductId, string>)
    ensures r.Ok? <==> forall i :: 0 <= i < |param| ==> IsAsciiAlphanumeric(param[i])
    ensures r.Ok? ==> r.value.inner == param
    ensures r.Err? ==> r.error == param
  {
    if forall i :: 0 <= i < |param| ==> IsAsciiAlphanumeric(param[i]) then Ok(ProductId(param))
    else Err(param)
  }

  /** Every barcode is a valid product id, and the empty parameter is too. */
  lemma BarcodesAreProductIds(param: string)
    requires AllDigits(param)
    ensures FromParam(param) == Ok(ProductId(param))
  {
  }
}
