/**
 * The body of `GET /products` once the gold price is known (renart/backend/index.js
 * lines 119-139): enrich the catalog, filter it, and wrap the result or the
 * error in the response envelope.
 */
module ProductsEndpoint {
  import opened Wrappers
  import opened JsNumber
  import opened Catalog
  import opened Filters
  import opened GoldPrice

  /** The JSON response: the listing (status 200) or `{error}` (status 500). */
  datatype Response =
    | Listing(goldPricePerGram: Num, count: nat, products: seq<EnrichedProduct>)
    | ServerError(error: string)

  /** `err.message || 'internal error'`. */
  function ErrorText(e: PriceError): (s: string)
    ensures s != []
    ensures Message(e) != [] ==> s == Message(e)
  {
    if Message(e) == "" then "internal error" else Message(e)
  }

  /**
   * The response for a gold price (or the error obtaining it), a catalog and a
   * query: the enriched catalog cut down to the products every given bound
   * admits, with the price rounded to four decimals and the count of products.
   */
  function Respond(price: Result<Num, PriceError>, catalog: seq<Product>, q: Query): (r: Response)
    ensures price.Ok? ==>
      && r.Listing?
      && r.goldPricePerGram == ToFixed(price.value, 4)
      && r.products == Select(EnrichAll(catalog, price.value), q)
      && r.count == |r.products|
    ensures price.Err? ==> r == ServerError(ErrorText(price.error))
  {
    match price
    case Ok(g) =>
      var enriched := ApplyFilters(EnrichAll(catalog, g), q);
      ApplyFiltersIsSelect(EnrichAll(catalog, g), q);
      Listing(ToFixed(g, 4), |enriched|, enriched)
    case Err(e) => ServerError(ErrorText(e))
  }

  /**
   * A listing keeps the catalog's order, and holds a product's enrichment iff
   * that product is in the catalog and the enrichment meets every given bound.
   */
  lemma ListingIsOrderedSelection(g: Num, catalog: seq<Product>, q: Query, x: EnrichedProduct)
    ensures var r := Respond(Ok(g), catalog, q);
      && SubsequenceOf(r.products, EnrichAll(catalog, g))
      && (x in r.products <==> (exists i :: 0 <= i < |catalog| && x == Enrich(catalog[i], g)) && Admits(q, x))
  {
    var enriched := EnrichAll(catalog, g);
    SelectIsSubsequence(enriched, q);
    SelectMembership(enriched, q, x);
    if x in enriched {
      var i :| 0 <= i < |enriched| && enriched[i] == x;
      assert enriched[i] == Enrich(catalog[i], g);
    }
    if exists i :: 0 <= i < |catalog| && x == Enrich(catalog[i], g) {
      var i :| 0 <= i < |catalog| && x == Enrich(catalog[i], g);
      assert enriched[i] == x;
    }
  }

  /** Without filters the listing is the whole catalog, enriched, in order. */
  lemma UnfilteredListingIsCatalog(g: Num, catalog: seq<Product>)
    ensures Respond(Ok(g), catalog, NoFilters).products == EnrichAll(catalog, g)
    ensures Respond(Ok(g), catalog, NoFilters).count == |catalog|
  {
    NoBoundsKeepAll(EnrichAll(catalog, g), NoFilters);
    ApplyFiltersIsSelect(EnrichAll(catalog, g), NoFilters);
  }
}
