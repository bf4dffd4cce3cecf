/**
 * The product catalog and its enrichment with a price and a rating
 * (renart/backend/index.js lines 107-112 and 119-127).
 */
module Catalog {
  import opened JsNumber

  /** A catalog entry as read from `products.json`. */
  datatype Product = Product(
    name: string,
    weight: real,            // grams
    popularityScore: real,   // in [0, 1]
    images: map<string, string>)

  /** A product with every original field plus the two computed ones. */
  datatype EnrichedProduct = EnrichedProduct(product: Product, priceUsd: Num, popularityOutOf5: Num)

  /**
   * `calculatePriceUSD`: `(popularityScore + 1) * weight * goldPrice`, that is
   * the value of the gold plus a popularity premium of up to the same again.
   */
  function CalculatePriceUsd(popularityScore: real, weightGrams: real, goldPricePerGram: Num): (r: Num)
    ensures goldPricePerGram.Finite? ==>
      var metal := weightGrams * goldPricePerGram.v;
      r == Finite(metal + popularityScore * metal)
    ensures goldPricePerGram == NaN ==> r == NaN
  {
    assert goldPricePerGram.Finite? ==>
      var w, g := weightGrams, goldPricePerGram.v;
      (popularityScore + 1.0) * w * g == w * g + popularityScore * (w * g);
    Mul(Finite((popularityScore + 1.0) * weightGrams), goldPricePerGram)
  }

  /** One step of the `map`: the price rounded to cents, the rating to tenths. */
  function Enrich(p: Product, goldPrice: Num): (e: EnrichedProduct)
    ensures e.product == p
    ensures e.popularityOutOf5.Finite?
    ensures goldPrice == NaN ==> e.priceUsd == NaN
    ensures goldPrice.Finite? ==> e.priceUsd.Finite?
  {
    EnrichedProduct(
      p,
      ToFixed(CalculatePriceUsd(p.popularityScore, p.weight, goldPrice), 2),
      ToFixed(Finite(p.popularityScore * 5.0), 1))
  }

  /** `products.map(...)`: the catalog enriched item by item, in order. */
  function EnrichAll(products: seq<Product>, goldPrice: Num): (r: seq<EnrichedProduct>)
    ensures |r| == |products|
    ensures forall i :: 0 <= i < |r| ==> r[i].product == products[i]
  {
    seq(|products|, i requires 0 <= i < |products| => Enrich(products[i], goldPrice))
  }


  /** A popularity score in [0, 1] gives a rating in [0, 5]. */
  lemma RatingInRange(p: Product, goldPrice: Num)
    requires 0.0 <= p.popularityScore <= 1.0
    ensures Enrich(p, goldPrice).popularityOutOf5.Finite?
    ensures 0.0 <= Enrich(p, goldPrice).popularityOutOf5.v <= 5.0
  {
    ToFixedWithin(p.popularityScore * 5.0, 1, 0, 5);
  }

  /** The unrounded price of `p` at a gold price of `g` per gram. */
  function Formula(p: Product, g: real): real {
    (p.popularityScore + 1.0) * p.weight * g
  }

  /** `price` is a whole number of cents within half a cent of `formula`. */
  predicate ToTheCent(price: Num, formula: real) {
    price.Finite? && OnGrid(price.v, 100.0) && WithinHalfStep(price.v, formula, 100.0)
  }

  /**
   * With a finite gold price, `priceUsd` is a whole number of cents within
   * half a cent of the formula's value.
   */
  lemma PriceIsFormulaToTheCent(p: Product, g: real)
    requires Abs(Formula(p, g)) < FixedLimit
    ensures ToTheCent(Enrich(p, Finite(g)).priceUsd, Formula(p, g))
  {
    var x := Formula(p, g);
    assert CalculatePriceUsd(p.popularityScore, p.weight, Finite(g)) == Finite(x);
    ToFixedIsNearest(x, 2);
  }

  /**
   * Every item of the enriched list is priced to the cent: its `priceUsd` is
   * a whole number of cents within half a cent of the formula for its product.
   */
  lemma EnrichAllToTheCent(products: seq<Product>, g: real, i: int)
    requires 0 <= i < |products|
    requires Abs(Formula(products[i], g)) < FixedLimit
    ensures EnrichAll(products, Finite(g))[i].product == products[i]
    ensures ToTheCent(EnrichAll(products, Finite(g))[i].priceUsd, Formula(products[i], g))
  {
    var p := products[i];
    assert EnrichAll(products, Finite(g))[i] == Enrich(p, Finite(g));
    PriceIsFormulaToTheCent(p, g);
  }

  /** Without a usable gold price every price is NaN. */
  lemma NaNGoldPriceGivesNaNPrices(products: seq<Product>, i: int)
    requires 0 <= i < |products|
    ensures EnrichAll(products, NaN)[i].priceUsd == NaN
  {
  }

  /** 5 g at popularity 0.85 and 60 USD per gram costs 555.00 and rates 4.3. */
  lemma WorkedExample(images: map<string, string>)
    ensures var e := Enrich(Product("Ring", 5.0, 0.85, images), Finite(60.0));
      e.priceUsd == Finite(555.0) && e.popularityOutOf5 == Finite(4.3)
  {
    assert (555.0 * 100.0 + 0.5).Floor == 55500;
    assert (4.25 * 10.0 + 0.5).Floor == 43;
  }
}
