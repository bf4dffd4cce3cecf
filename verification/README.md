# Gold-priced product catalog: a Dafny model of the price service

The renart backend serves a small jewellery catalog. Each product's price is
derived from the live price of gold: the service obtains the gold price in USD
per gram, caches it for five minutes in a single slot, and applies the formula
`(popularityScore + 1) * weight * goldPrice` to every product. It also turns
the popularity score into a rating out of 5 and filters the list by optional,
inclusive price and rating bounds.

This project models that service (`renart/backend/index.js`):

- **Gold price acquisition** (`GoldPrice`, `GoldPriceProperties`,
  `Server.Backend.FetchGoldPricePerGramUsd`). A cache slot `{pricePerGram, ts}`
  with a 300 000 ms time to live. On a miss, a decision tree picks one of four
  sources: a fixed override, GoldAPI, Metals-API, or the local default of
  80 USD/g. Provider replies are normalised to USD per gram with the troy
  ounce of 31.1034768 g. The slot is overwritten on success and left alone on
  failure. `Server.Backend` holds the slot as a field and runs the steps
  imperatively. Its method is proved equal to the pure function
  `GoldPrice.Fetch`, and the properties are proved about that function.
- **Pricing and enrichment** (`Catalog`). `calculatePriceUSD`, the per-item
  `map`, and `Number(x.toFixed(k))` rounding (`JsNumber.ToFixed`).
- **Filtering and the response** (`Filters`, `ProductsEndpoint`,
  `Server.Backend.GetProducts`). The handler's chain of four conditional
  `filter` steps is proved equal to a one-pass selection by all given bounds.
  That selection keeps the catalog's order and keeps each product's exact
  multiplicity.
- **JavaScript semantics the code relies on** (`JsNumber`, `StringToNumber`,
  `Json`, `Settings`):
  - NaN and infinities;
  - truthiness;
  - comparisons that are false on NaN;
  - `Number(string)` for query bounds and for the price override;
  - property access on JSON replies;
  - the `process.env.X || default` configuration.

The clock (`now`), the environment, the catalog and the upstream reply are
parameters. A call returns the one upstream request it made, if any.

Two consequences of the code's order of checks are easy to miss:

- The cache is checked before the fixed override (line 43), so the override
  is cached like any other price, and a zero override is stored but never
  hits.
- A non-empty bound is converted with `Number` (lines 131-134), so text that
  is not a number becomes NaN and removes every product, while a blank value
  such as `" "` becomes the bound 0.

## Model

| member | source | states |
|---|---|---|
| `GoldPriceProperties.CacheHit` | renart/backend/index.js:42-43 | a truthy stored price younger than 300000 ms is returned; no request is made and the slot is unchanged |
| `GoldPriceProperties.HitIgnoresUpstream` | renart/backend/index.js:43 | on a hit, neither the configuration nor the upstream reply affects the outcome |
| `GoldPriceProperties.FalsyPriceNeverHits` | renart/backend/index.js:43 | a stored `null`, 0 or NaN is never a hit |
| `GoldPriceProperties.MissOutcome` | renart/backend/index.js:45-104 | a successful miss sets the slot to exactly `{result, now}`; a failed one leaves it unchanged; a request is made iff the source is an upstream provider |
| `GoldPriceProperties.ErrorLeavesCache` | renart/backend/index.js:59-96 | every error leaves the slot unchanged; only a miss with Metals-API and no key, or with an upstream provider, can fail |
| `GoldPriceProperties.FixedOverrideWins` | renart/backend/index.js:48-50 | on a miss, a non-NaN override is the price whatever the provider; no request is made and it is cached |
| `GoldPriceProperties.NaNOverrideIgnored` | renart/backend/index.js:48 | a NaN override has no effect on the decision |
| `GoldPriceProperties.GoldApiWithoutKeyDefaults` | renart/backend/index.js:51-55 | GoldAPI with an empty key yields 80 USD/g without a request |
| `GoldPriceProperties.UnknownProviderDefaults` | renart/backend/index.js:98-101 | an unrecognised provider yields 80 USD/g |
| `GoldPriceProperties.MetalsApiWithoutKeyFails` | renart/backend/index.js:75-76 | Metals-API with an empty key fails with the configuration error, makes no request and changes nothing |
| `GoldPriceProperties.RequestCarriesKey` | renart/backend/index.js:57-79 | GoldAPI is called at its fixed URL with the key as `x-access-token`; Metals-API gets the key inside its URL |
| `GoldPriceProperties.UpstreamStatusFails` | renart/backend/index.js:59-83 | a non-ok status fails with the provider, the status and the body text, and the slot is unchanged |
| `GoldPriceProperties.OunceTestIgnoresCase` | renart/backend/index.js:66 | two units that agree once lower-cased agree on whether they mention `oz` |
| `GoldPriceProperties.OzTMentionsOunces` | renart/backend/index.js:66 | `oz_t` and `Troy OZ` both mention ounces |
| `GoldPriceProperties.GoldApiOunceUnit` | renart/backend/index.js:66-67 | for any body, a string unit mentioning ounces gives `Number(price) / 31.1034768` |
| `GoldPriceProperties.GoldApiPerGramQuote` | renart/backend/index.js:68-69 | for any body without an ounce unit, a truthy `price_per_gram` is the price as it stands |
| `GoldPriceProperties.GoldApiQuotesAgree` | renart/backend/index.js:66-73 | a GoldAPI price per ounce and the same price per gram normalise alike, except a zero per-gram price, which is falsy and gives NaN |
| `GoldPriceProperties.GoldApiNonStringUnitThrows` | renart/backend/index.js:66 | a truthy `unit` that is not a string (number, `true`, object) throws the TypeError `j.unit.toLowerCase is not a function` |
| `GoldPriceProperties.GoldApiFallsBackToOunces` | renart/backend/index.js:70-73 | with no ounce unit and no truthy `price_per_gram`, `price` is divided by the troy ounce |
| `GoldPriceProperties.MetalsApiInverseRate` | renart/backend/index.js:86-91 | a rate r in (0,1) is inverted: it gives the same price as quoting `1/r` per ounce, and price x 31.1034768 x r = 1 |
| `GoldPriceProperties.MetalsApiLargeRateIsPrice` | renart/backend/index.js:89-91 | a rate of 1 or more is taken as a price per ounce |
| `GoldPriceProperties.MetalsApiSmallRateInverted` | renart/backend/index.js:86-91 | for any body, a truthy `rates.XAU` whose number r lies in (0,1) gives `(1 / r) / 31.1034768` |
| `GoldPriceProperties.MetalsApiOtherRateIsPrice` | renart/backend/index.js:86-91 | for any body, any other truthy rate (0 or less, 1 or more, an infinity, NaN) is divided by the troy ounce as it is; a negative rate gives a negative price |
| `GoldPriceProperties.MetalsApiPriceFallback` | renart/backend/index.js:92-94 | for any body without a truthy `rates.XAU`, a truthy `price` is taken per ounce |
| `GoldPriceProperties.MetalsApiUnexpectedFormat` | renart/backend/index.js:86-96 | a body with neither a truthy `rates.XAU` nor a truthy `price` is the format error |
| `GoldPriceProperties.SecondCallWithinTtl` | renart/backend/index.js:42-43 | after a successful refresh with a truthy price, a call within the TTL returns the same price with no request, whatever the upstream now says |
| `GoldPriceProperties.ExpiredSlotRefetches` | renart/backend/index.js:43-104 | once the TTL has passed, the slot is not fresh; with an upstream source the call makes its request |
| `GoldPriceProperties.FalsyResultAlwaysMisses` | renart/backend/index.js:43 | a falsy price that a miss stored (a zero override, NaN) is never served from the cache |
| `GoldPrice.Fetch` | renart/backend/index.js:41-105 | the slot afterwards is either unchanged or `{returned price, now}`; a returned price is always what the slot then holds; a request is made only when the slot was not fresh |
| `GoldPrice.Fresh` | renart/backend/index.js:43 | a fresh slot holds a price that is not `null`, NaN or 0 |
| `GoldPrice.Miss` | renart/backend/index.js:45-101 | a request is made iff the source is GoldAPI or Metals-API; the override and the local default never fail; a failure needs a missing Metals-API key or a request |
| `GoldPrice.GoldApiPrice` | renart/backend/index.js:63-73 | fails iff the body is nullish or its `unit` is truthy and not a string, and then with a thrown error; otherwise the price is `Number(price) / 31.1034768` or a truthy `price_per_gram` |
| `GoldPrice.MetalsApiPrice` | renart/backend/index.js:84-97 | fails only on a nullish body or with the format error, and with the format error iff the body has neither a truthy `rates.XAU` nor a truthy `price` |
| `GoldPrice.ChooseSource` | renart/backend/index.js:48-101 | the decision order: a non-NaN override first; then GOLDAPI (default 80 without key); then METALSAPI (error without key); anything else 80 |
| `GoldPrice.ReadReply` | renart/backend/index.js:57-63 | a non-ok status becomes the status error with the body text; a body is produced iff the status is ok and the JSON parses |
| `GoldPrice.Message` | renart/backend/index.js:59-96 | the error message names the provider and carries the status in decimal followed by the body |
| `GoldPrice.PerGram` | renart/backend/index.js:67 | a finite per-ounce price is the per-gram price times 31.1034768 |
| `Server.Backend.constructor` | renart/backend/index.js:14-34 | the configuration is read from the environment, the catalog is loaded, the slot starts as `{null, 0}` |
| `Server.Backend.FetchGoldPricePerGramUsd` | renart/backend/index.js:41-105 | the imperative fetch equals `GoldPrice.Fetch` on the old slot: a hit returns the stored price with no request; an error keeps the slot; a successful miss stores `{price, now}` |
| `Server.Backend.GetProducts` | renart/backend/index.js:115-140 | the handler's response is `Respond` of the fetched price, and the slot and request are those of `Fetch` |
| `Settings.LoadConfig` | renart/backend/index.js:22-34 | unset or empty variables take their defaults (`GOLDAPI`, empty keys); the override is present iff `GOLD_PRICE_PER_GRAM` is non-empty, and is its `Number` value |
| `Settings.DefaultProviderIsGoldApi` | renart/backend/index.js:22 | without `PROVIDER` the service uses GoldAPI |
| `Settings.WholeDollarOverride` | renart/backend/index.js:32-34 | an override written as a whole number is that price |
| `Catalog.CalculatePriceUsd` | renart/backend/index.js:107-112 | the price is the gold value `weight x goldPrice` plus a popularity premium of `popularityScore` times that value; a NaN gold price gives NaN |
| `Catalog.Enrich` | renart/backend/index.js:119-126 | the item keeps every product field; its rating is always a finite number; a NaN gold price gives a NaN price and a finite one a finite price |
| `Catalog.EnrichAll` | renart/backend/index.js:119-127 | the enriched list has the catalog's length and order, and each item keeps its product's fields |
| `Catalog.RatingInRange` | renart/backend/index.js:121 | a popularity score in [0,1] gives a rating in [0,5] |
| `Catalog.PriceIsFormulaToTheCent` | renart/backend/index.js:120-124 | with a finite gold price, `priceUsd` is a whole number of cents within half a cent of the formula |
| `Catalog.EnrichAllToTheCent` | renart/backend/index.js:119-127 | item i of the enriched list is product i, priced at a whole number of cents within half a cent of its formula |
| `Catalog.NaNGoldPriceGivesNaNPrices` | renart/backend/index.js:108-124 | a NaN gold price makes every product's price NaN |
| `Catalog.WorkedExample` | renart/backend/index.js:108-124 | 5 g at popularity 0.85 with gold at 60 USD/g is priced 555.00 and rated 4.3 |
| `JsNumber.ToFixed` | renart/backend/index.js:124 | NaN and the infinities are unchanged; a finite value stays finite and keeps its sign; from 10^21 up it is unchanged |
| `JsNumber.AtMost` | renart/backend/index.js:131-134 | `<=` is false whenever NaN is involved and is the order of the reals on finite numbers |
| `JsNumber.AtMostOrder` | renart/backend/index.js:131-134 | `<=` is reflexive except on NaN, antisymmetric and transitive |
| `JsNumber.ToFixedIsNearest` | renart/backend/index.js:124 | below 10^21, `Number(x.toFixed(k))` is a multiple of 10^-k within half a step of x |
| `JsNumber.ToFixedIdempotent` | renart/backend/index.js:124 | rounding a rounded value again changes nothing |
| `JsNumber.ToFixedWithin` | renart/backend/index.js:121 | rounding keeps a value between two whole numbers that bound it |
| `StringToNumber.ToNumber` | renart/backend/index.js:131-134 | a blank string is 0; a `0x`/`0o`/`0b` literal is NaN or a non-negative whole number |
| `Json.Value.Truthy` | renart/backend/index.js:86 | `null` and `undefined` are falsy; for a value that is neither a string nor an object, truthiness agrees with that of `Number(v)` |
| `StringToNumber.NatToStringRoundTrip` | renart/backend/index.js:61 | `Number` of the decimal string of a natural number is that number |
| `StringToNumber.BlankIsZero` | renart/backend/index.js:131-134 | a blank string converts to 0, not NaN |
| `StringToNumber.NonNumericIsNaN` | renart/backend/index.js:131-134 | text whose first non-blank character cannot start a number converts to NaN |
| `Filters.FilterBy` | renart/backend/index.js:131-134 | one `filter` step: never longer, and holds exactly the elements of its input that pass the step's test |
| `Filters.ApplyFilters` | renart/backend/index.js:130-134 | the chain never lengthens the list and keeps only items of its input |
| `Filters.Select` | renart/backend/index.js:130-134 | the one-pass reference: never longer than its input, and keeps only input items that meet every given bound (`Admits`) |
| `Filters.FilterByAppend` | renart/backend/index.js:131-134 | a filter step distributes over concatenation |
| `Filters.ApplyFiltersIsSelect` | renart/backend/index.js:130-134 | the four successive steps equal one pass keeping the items that meet every given bound |
| `Filters.SelectIsSubsequence` | renart/backend/index.js:130-134 | the filtered list is an order-preserving subsequence of its input |
| `Filters.SelectMultiplicity` | renart/backend/index.js:130-134 | every copy of an admitted item is kept, and no copy of any other item |
| `Filters.SelectMembership` | renart/backend/index.js:130-134 | an item is in the result iff it is in the input and meets every given bound inclusively |
| `Filters.NoBoundsKeepAll` | renart/backend/index.js:131-134 | absent or empty bounds remove nothing |
| `Filters.NaNBoundRemovesAll` | renart/backend/index.js:131-134 | a given bound that is not a number removes every product |
| `Filters.EqualPriceBoundsKeepThatPrice` | renart/backend/index.js:131-132 | bounds are inclusive: equal `price_min` and `price_max` keep exactly the products at that price |
| `Filters.PopMinDropsLowerRatings` | renart/backend/index.js:133 | `pop_min` drops every product rated below it |
| `ProductsEndpoint.ErrorText` | renart/backend/index.js:139 | the 500 body is the error message, or `internal error` when the message is empty |
| `ProductsEndpoint.Respond` | renart/backend/index.js:119-139 | with a price: the gold price rounded to 4 decimals, the enriched catalog cut to the items every given bound admits, and `count` equal to their number; with an error: the 500 body |
| `ProductsEndpoint.ListingIsOrderedSelection` | renart/backend/index.js:119-136 | the listing keeps catalog order and holds an enriched product iff it comes from the catalog and meets every given bound |
| `ProductsEndpoint.UnfilteredListingIsCatalog` | renart/backend/index.js:119-136 | without filters the listing is the whole enriched catalog and `count` is the catalog size |

## Left out

- Express setup, CORS, `app.listen`, the `PORT` setting and JSON serialisation (lines 1-11, 115-118, 143). The handler is a method from a query to a response value.
- Real HTTP through `node-fetch`, the `https.Agent` that disables TLS checks, and transport timeouts (lines 2, 5, 36-38). The upstream's answer to the one request a miss makes is a parameter (`GoldPrice.Reply`). `resp.text()` and `resp.json()` are given as the body text and the parsed JSON or its parse error.
- `dotenv`, `process.env` and reading `products.json` (lines 6-7, 14). The environment and the catalog are constructor parameters. Catalog weights and popularity scores are assumed to be numbers.
- Async/await and concurrent requests. Calls are modelled one after another, so two misses in flight at once, each calling the upstream, are not captured.
- IEEE double arithmetic. Finite numbers are exact reals, so overflow to Infinity and the binary representation that `toFixed` rounds (where `1.005.toFixed(2)` is `"1.00"`) are not modelled. Neither is `-0`.
- `StringToNumber.ToNumber` does not model decimal strings too large for a double, which JavaScript reads as Infinity.
- JSON arrays in upstream bodies, and query parameters given as arrays or objects (a repeated `price_min`), are not modelled.
- `GoldPrice.MentionsOunces` lower-cases ASCII letters only. This is exact for finding `oz`, because no other character lower-cases to `o` or `z`.
- Logging through `console.warn` and `console.error`.
- The frontend (`renart/frontend/ProductCard.jsx`, `renart/frontend/ProductsGrid.jsx`, `renart/frontend/vite.config.js`): UI rendering and build configuration.
