/**
 * The running service (renart/backend/index.js): the configuration and the
 * catalog read at start-up, the module-level `goldCache` slot, and the two
 * operations that use it.
 */
module Server {
  import opened Wrappers
  import opened JsNumber
  import opened Json
  import opened Settings
  import opened GoldPrice
  import opened Catalog
  import opened Filters
  import opened ProductsEndpoint

  class Backend {
    const config: Config
    const products: seq<Product>
    var goldCache: Slot

    /** Start-up: read the environment, load the catalog, start with an empty cache. */
    constructor(env: Env, catalog: seq<Product>)
      ensures config == LoadConfig(env) && products == catalog
      ensures goldCache == EmptySlot
    {
      config := LoadConfig(env);
      products := catalog;
      goldCache := EmptySlot;
    }

    /**
     * `fetchGoldPricePerGramUSD()` at time `now`, where `reply` is what the
     * upstream would answer; `request` is the call made, if any.
     */
    method FetchGoldPricePerGramUsd(now: int, reply: Reply) returns (result: Result<Num, PriceError>, request: Option<Request>)
      modifies this
      ensures Fetch(old(goldCache), now, config, reply) == Outcome(result, request, goldCache)
      ensures Fresh(old(goldCache), now) ==> result == Ok(old(goldCache).pricePerGram.value) && request.None?
      ensures result.Err? ==> goldCache == old(goldCache)
      ensures !Fresh(old(goldCache), now) && result.Ok? ==> goldCache == Slot(Some(result.value), now)
    {
      if goldCache.pricePerGram.Some? && goldCache.pricePerGram.value.Truthy() && now - goldCache.ts < GoldCacheTtl {
        return Ok(goldCache.pricePerGram.value), None;
      }

      var pricePerGram: Num;
      request := None;

      if config.fixedGoldPrice.Some? && config.fixedGoldPrice.value != NaN {
        pricePerGram := config.fixedGoldPrice.value;
      } else if config.provider == "GOLDAPI" {
        if config.goldApiKey == "" {
          pricePerGram := Finite(LocalDefaultPrice);
        } else {
          request := Some(GoldApiRequest(config.goldApiKey));
          var j := ReadReply(GoldApi, reply);
          if j.Err? {
            return Err(j.error), request;
          }
          var p := GoldApiPrice(j.value);
          if p.Err? {
            return Err(p.error), request;
          }
          pricePerGram := p.value;
        }
      } else if config.provider == "METALSAPI" {
        if config.metalsApiKey == "" {
          return Err(MissingMetalsKey), None;
        }
        request := Some(MetalsApiRequest(config.metalsApiKey));
        var j := ReadReply(MetalsApi, reply);
        if j.Err? {
          return Err(j.error), request;
        }
        var p := MetalsApiPrice(j.value);
        if p.Err? {
          return Err(p.error), request;
        }
        pricePerGram := p.value;
      } else {
        pricePerGram := Finite(LocalDefaultPrice);
      }

      goldCache := Slot(Some(pricePerGram), now);
      return Ok(pricePerGram), request;
    }

    /** The `GET /products` handler. */
    method GetProducts(now: int, reply: Reply, query: Query) returns (response: Response, request: Option<Request>)
      modifies this
      ensures var o := Fetch(old(goldCache), now, config, reply);
        && response == Respond(o.result, products, query)
        && request == o.request
        && goldCache == o.cache
    {
      var goldPrice;
      goldPrice, request := FetchGoldPricePerGramUsd(now, reply);
      if goldPrice.Err? {
        return ServerError(ErrorText(goldPrice.error)), request;
      }
      var g := goldPrice.value;

      var enriched := EnrichAll(products, g);
      if Given(query.priceMin) { enriched := FilterBy(enriched, PriceAtLeast(BoundValue(query.priceMin))); }
      if Given(query.priceMax) { enriched := FilterBy(enriched, PriceAtMost(BoundValue(query.priceMax))); }
      if Given(query.popMin) { enriched := FilterBy(enriched, RatingAtLeast(BoundValue(query.popMin))); }
      if Given(query.popMax) { enriched := FilterBy(enriched, RatingAtMost(BoundValue(query.popMax))); }

      response := Listing(ToFixed(g, 4), |enriched|, enriched);
    }
  }
}
