/** What `GoldPrice.Fetch` promises: cache hits and misses, the decision order, errors and unit conversion. */
module GoldPriceProperties {
  import opened Wrappers
  import opened JsNumber
  import opened Json
  import opened Settings
  import opened GoldPrice

  // ---- The cache slot ----

  /** A hit returns the stored price, makes no request and leaves the slot alone. */
  lemma CacheHit(slot: Slot, now: int, cfg: Config, reply: Reply)
    requires slot.pricePerGram.Some? && slot.pricePerGram.value.Truthy()
    requires now - slot.ts < GoldCacheTtl
    ensures Fetch(slot, now, cfg, reply) == Outcome(Ok(slot.pricePerGram.value), None, slot)
  {
  }

  /** On a hit neither the configuration nor the upstream matters. */
  lemma HitIgnoresUpstream(slot: Slot, now: int, cfg1: Config, reply1: Reply, cfg2: Config, reply2: Reply)
    requires Fresh(slot, now)
    ensures Fetch(slot, now, cfg1, reply1) == Fetch(slot, now, cfg2, reply2)
  {
  }

  /** A stored `null`, 0 or NaN is never a hit, however young. */
  lemma FalsyPriceNeverHits(slot: Slot, now: int)
    requires slot.pricePerGram.None? || !slot.pricePerGram.value.Truthy()
    ensures !Fresh(slot, now)
  {
  }

  /**
   * A miss overwrites the slot with the new price and the current time when
   * it succeeds and leaves it alone when it fails; it makes a request exactly
   * when the source is an upstream provider.
   */
  lemma MissOutcome(slot: Slot, now: int, cfg: Config, reply: Reply)
    requires !Fresh(slot, now)
    ensures var o := Fetch(slot, now, cfg, reply);
      && (o.result.Ok? ==> o.cache == Slot(Some(o.result.value), now))
      && (o.result.Err? ==> o.cache == slot)
      && (o.request.Some? <==> ChooseSource(cfg).AskGoldApi? || ChooseSource(cfg).AskMetalsApi?)
  {
  }

  /**
   * Every error leaves the slot unchanged, and only a miss whose source is
   * Metals-API without a key or an upstream provider can fail.
   */
  lemma ErrorLeavesCache(slot: Slot, now: int, cfg: Config, reply: Reply)
    requires Fetch(slot, now, cfg, reply).result.Err?
    ensures Fetch(slot, now, cfg, reply).cache == slot
    ensures !Fresh(slot, now)
    ensures var s := ChooseSource(cfg); s == NoMetalsKey || s.AskGoldApi? || s.AskMetalsApi?
  {
  }

  // ---- The decision order of a miss ----

  /** A non-NaN override wins over every provider, and is cached like any fetched price. */
  lemma FixedOverrideWins(slot: Slot, now: int, cfg: Config, reply: Reply, p: Num)
    requires !Fresh(slot, now)
    requires cfg.fixedGoldPrice == Some(p) && p != NaN
    ensures Fetch(slot, now, cfg, reply) == Outcome(Ok(p), None, Slot(Some(p), now))
  {
  }

  /** A NaN override (`GOLD_PRICE_PER_GRAM=abc`) is ignored: the provider decides. */
  lemma NaNOverrideIgnored(cfg: Config)
    requires cfg.fixedGoldPrice == Some(NaN)
    ensures ChooseSource(cfg) == ChooseSource(cfg.(fixedGoldPrice := None))
  {
  }

  /** GoldAPI without a key does not fail: it yields the local default of 80 USD per gram. */
  lemma GoldApiWithoutKeyDefaults(slot: Slot, now: int, cfg: Config, reply: Reply)
    requires !Fresh(slot, now)
    requires cfg.fixedGoldPrice.None? || cfg.fixedGoldPrice == Some(NaN)
    requires cfg.provider == "GOLDAPI" && cfg.goldApiKey == ""
    ensures Fetch(slot, now, cfg, reply) == Outcome(Ok(Finite(80.0)), None, Slot(Some(Finite(80.0)), now))
  {
  }

  /** An unrecognised provider yields the local default as well. */
  lemma UnknownProviderDefaults(slot: Slot, now: int, cfg: Config, reply: Reply)
    requires !Fresh(slot, now)
    requires cfg.fixedGoldPrice.None? || cfg.fixedGoldPrice == Some(NaN)
    requires cfg.provider != "GOLDAPI" && cfg.provider != "METALSAPI"
    ensures Fetch(slot, now, cfg, reply) == Outcome(Ok(Finite(80.0)), None, Slot(Some(Finite(80.0)), now))
  {
  }

  /** Metals-API without a key fails with a configuration error and changes nothing. */
  lemma MetalsApiWithoutKeyFails(slot: Slot, now: int, cfg: Config, reply: Reply)
    requires !Fresh(slot, now)
    requires cfg.fixedGoldPrice.None? || cfg.fixedGoldPrice == Some(NaN)
    requires cfg.provider == "METALSAPI" && cfg.metalsApiKey == ""
    ensures Fetch(slot, now, cfg, reply) == Outcome(Err(MissingMetalsKey), None, slot)
    ensures Message(MissingMetalsKey) == "METALS_API_KEY env var not set"
  {
  }

  /** The request each provider is sent: GoldAPI's key in a header, Metals-API's in the URL. */
  lemma RequestCarriesKey(slot: Slot, now: int, cfg: Config, reply: Reply)
    requires !Fresh(slot, now)
    ensures ChooseSource(cfg).AskGoldApi? ==>
      Fetch(slot, now, cfg, reply).request == Some(Request(GoldApiUrl, Some(cfg.goldApiKey)))
    ensures ChooseSource(cfg).AskMetalsApi? ==>
      var url := Fetch(slot, now, cfg, reply).request.value.url;
      url[..45] == "https://metals-api.com/api/latest?access_key=" && url[45..45 + |cfg.metalsApiKey|] == cfg.metalsApiKey
  {
    if ChooseSource(cfg).AskMetalsApi? {
      var url := MetalsApiRequest(cfg.metalsApiKey).url;
      assert |"https://metals-api.com/api/latest?access_key="| == 45;
      assert url[45..45 + |cfg.metalsApiKey|] == cfg.metalsApiKey;
    }
  }

  /** A non-ok status fails with the provider, the status and the body text, and changes nothing. */
  lemma UpstreamStatusFails(slot: Slot, now: int, cfg: Config, status: nat, text: string, body: Body)
    requires !Fresh(slot, now)
    requires ChooseSource(cfg).AskGoldApi? || ChooseSource(cfg).AskMetalsApi?
    requires !IsOk(status)
    ensures var o := Fetch(slot, now, cfg, Http(status, text, body));
      var p := if ChooseSource(cfg).AskGoldApi? then GoldApi else MetalsApi;
      && o.result == Err(UpstreamStatus(p, status, text))
      && o.cache == slot
  {
  }

  // ---- Unit conversion ----

  /** The ounce test ignores case: strings that agree once lower-cased agree on it. */
  lemma OunceTestIgnoresCase(s: string, t: string)
    requires |s| == |t| && forall i :: 0 <= i < |s| ==> Lower(s[i]) == Lower(t[i])
    ensures MentionsOunces(s) <==> MentionsOunces(t)
  {
  }

  /** Two units GoldAPI may send: `oz_t`, and an upper-case one. */
  lemma OzTMentionsOunces()
    ensures MentionsOunces("oz_t") && MentionsOunces("Troy OZ")
  {
    assert "oz_t"[0] == 'o' && "oz_t"[1] == 'z';
    assert "Troy OZ"[5] == 'O' && "Troy OZ"[6] == 'Z';
  }

  /**
   * GoldAPI quoting the same price per ounce or per gram gives the same
   * normalised price, unless that price is 0: a zero `price_per_gram` is
   * falsy and the fallback divides the missing `price`, giving NaN.
   */
  lemma GoldApiQuotesAgree(g: real)
    ensures var perOunce := Object(map["price" := Number(Finite(g * OunceToGram)), "unit" := Str("oz_t")]);
      GoldApiPrice(perOunce) == Ok(Finite(g))
    ensures var perGram := Object(map["price_per_gram" := Number(Finite(g))]);
      GoldApiPrice(perGram) == if g != 0.0 then Ok(Finite(g)) else Ok(NaN)
  {
    OzTMentionsOunces();
  }

  /** A unit that is truthy but not a string (a number, `true`, an object) makes `toLowerCase` throw. */
  lemma GoldApiNonStringUnitThrows(j: Value)
    requires !j.Nullish()
    requires j.Get("unit").Truthy() && !j.Get("unit").Str?
    ensures GoldApiPrice(j) == Err(Thrown("j.unit.toLowerCase is not a function"))
  {
  }

  /** A unit mentioning ounces, in any case, divides `price` by the troy ounce, whatever else the body holds. */
  lemma GoldApiOunceUnit(j: Value)
    requires !j.Nullish()
    requires j.Get("unit").Str? && MentionsOunces(j.Get("unit").s)
    ensures GoldApiPrice(j) == Ok(PerGram(j.Get("price").ToNumber()))
  {
  }

  /**
   * Without an ounce unit, a truthy `price_per_gram` is the price as it
   * stands, whatever `price` says.
   */
  lemma GoldApiPerGramQuote(j: Value)
    requires !j.Nullish()
    requires !j.Get("unit").Truthy() || (j.Get("unit").Str? && !MentionsOunces(j.Get("unit").s))
    requires j.Get("price_per_gram").Truthy()
    ensures GoldApiPrice(j) == Ok(j.Get("price_per_gram").ToNumber())
  {
  }

  /**
   * GoldAPI without an ounce unit and without a truthy per-gram price takes
   * `price` to be per ounce.
   */
  lemma GoldApiFallsBackToOunces(j: Value)
    requires !j.Nullish()
    requires !j.Get("unit").Truthy() || (j.Get("unit").Str? && !MentionsOunces(j.Get("unit").s))
    requires !j.Get("price_per_gram").Truthy()
    ensures GoldApiPrice(j) == Ok(PerGram(j.Get("price").ToNumber()))
  {
  }

  /**
   * Metals-API quoting a rate `r` in (0, 1) (ounces per dollar) is the same as
   * quoting the price `1 / r` per ounce, and the price per gram times the
   * ounce times the rate is 1.
   */
  lemma MetalsApiInverseRate(r: real)
    requires 0.0 < r < 1.0
    ensures var byRate := Object(map["rates" := Object(map["XAU" := Number(Finite(r))])]);
      var byPrice := Object(map["price" := Number(Finite(1.0 / r))]);
      && MetalsApiPrice(byRate) == MetalsApiPrice(byPrice)
      && MetalsApiPrice(byRate).Ok? && MetalsApiPrice(byRate).value.Finite?
      && MetalsApiPrice(byRate).value.v * OunceToGram * r == 1.0
  {
    var v := MetalsApiPrice(Object(map["rates" := Object(map["XAU" := Number(Finite(r))])])).value.v;
    assert v * OunceToGram == 1.0 / r;
  }

  /** A rate of 1 or more is read as a price per ounce, not inverted. */
  lemma MetalsApiLargeRateIsPrice(r: real)
    requires r >= 1.0
    ensures MetalsApiPrice(Object(map["rates" := Object(map["XAU" := Number(Finite(r))])]))
      == Ok(Finite(r / OunceToGram))
  {
  }

  /** A truthy `rates.XAU` whose number lies strictly between 0 and 1 is inverted, whatever else the body holds. */
  lemma MetalsApiSmallRateInverted(j: Value)
    requires !j.Nullish()
    requires j.Get("rates").Truthy() && j.Get("rates").Get("XAU").Truthy()
    requires var r := j.Get("rates").Get("XAU").ToNumber(); r.Finite? && 0.0 < r.v < 1.0
    ensures var r := j.Get("rates").Get("XAU").ToNumber();
      MetalsApiPrice(j) == Ok(PerGram(Finite(1.0 / r.v)))
  {
  }

  /**
   * Any other truthy `rates.XAU` (1 or more, 0 or less, an infinity, NaN) is
   * taken as the price per ounce; a negative rate gives a negative price.
   */
  lemma MetalsApiOtherRateIsPrice(j: Value)
    requires !j.Nullish()
    requires j.Get("rates").Truthy() && j.Get("rates").Get("XAU").Truthy()
    requires var r := j.Get("rates").Get("XAU").ToNumber(); !(r.Finite? && 0.0 < r.v < 1.0)
    ensures var r := j.Get("rates").Get("XAU").ToNumber();
      MetalsApiPrice(j) == Ok(PerGram(r))
    ensures var r := j.Get("rates").Get("XAU").ToNumber();
      r.Finite? && r.v < 0.0 ==> MetalsApiPrice(j).value.Finite? && MetalsApiPrice(j).value.v < 0.0
  {
    var r := j.Get("rates").Get("XAU").ToNumber();
    if r.Finite? && r.v < 0.0 {
      var g := PerGram(r);
      assert g.v * OunceToGram == r.v;
    }
  }

  /** Without a truthy rate, a truthy `price` is taken per ounce. */
  lemma MetalsApiPriceFallback(j: Value)
    requires !j.Nullish()
    requires !j.Get("rates").Truthy() || !j.Get("rates").Get("XAU").Truthy()
    requires j.Get("price").Truthy()
    ensures MetalsApiPrice(j) == Ok(PerGram(j.Get("price").ToNumber()))
  {
  }

  /** A Metals-API body with neither a truthy `rates.XAU` nor a truthy `price` is an error. */
  lemma MetalsApiUnexpectedFormat(j: Value)
    requires !j.Nullish()
    requires !j.Get("rates").Truthy() || !j.Get("rates").Get("XAU").Truthy()
    requires !j.Get("price").Truthy()
    ensures MetalsApiPrice(j) == Err(UnexpectedMetalsFormat)
  {
  }

  // ---- Successive calls ----

  /**
   * Two calls within the time to live of a truthy price give the same price
   * however the upstream changes in between, and the second makes no request.
   */
  lemma SecondCallWithinTtl(slot: Slot, t1: int, t2: int, cfg: Config, reply1: Reply, reply2: Reply)
    requires var o := Fetch(slot, t1, cfg, reply1); o.result.Ok? && o.result.value.Truthy()
    requires !Fresh(slot, t1)
    requires t2 < t1 + GoldCacheTtl
    ensures var o1 := Fetch(slot, t1, cfg, reply1);
      Fetch(o1.cache, t2, cfg, reply2) == Outcome(o1.result, None, o1.cache)
  {
  }

  /** Once the time to live has passed, a call goes back to the source. */
  lemma ExpiredSlotRefetches(slot: Slot, now: int, cfg: Config, reply: Reply)
    requires now - slot.ts >= GoldCacheTtl
    ensures !Fresh(slot, now)
    ensures ChooseSource(cfg).AskGoldApi? || ChooseSource(cfg).AskMetalsApi? ==>
      Fetch(slot, now, cfg, reply).request.Some?
  {
  }

  /**
   * A falsy price that a miss produced (a zero override, a NaN from a body
   * without a price) is stored but never served from the cache: every later
   * call misses again.
   */
  lemma FalsyResultAlwaysMisses(slot: Slot, t1: int, t2: int, cfg: Config, reply1: Reply)
    requires var o := Fetch(slot, t1, cfg, reply1); o.result.Ok? && !o.result.value.Truthy()
    ensures !Fresh(Fetch(slot, t1, cfg, reply1).cache, t2)
  {
  }
}
