/**
 * Acquisition of the gold price in USD per gram (renart/backend/index.js
 * lines 17-18 and 41-105), as pure functions of the cache slot, the clock,
 * the configuration and the upstream reply. `Server.Backend` runs the same
 * steps imperatively on its cache field and is proved equal to `Fetch`.
 */
module GoldPrice {
  import opened Wrappers
  import opened JsNumber
  import opened Json
  import opened Settings
  import StringToNumber

  /** Time to live of the cached price, in milliseconds. */
  const GoldCacheTtl: int := 1000 * 60 * 5

  /** Grams in a troy ounce. */
  const OunceToGram: real := 31.1034768

  /** The price used when GoldAPI has no key or no provider is recognised. */
  const LocalDefaultPrice: real := 80.0

  const GoldApiUrl: string := "https://www.goldapi.io/api/XAU/USD"

  datatype Provider = GoldApi | MetalsApi

  /** An upstream HTTP GET: its URL and its `x-access-token` header, if any. */
  datatype Request = Request(url: string, accessToken: Option<string>)

  function GoldApiRequest(key: string): Request {
    Request(GoldApiUrl, Some(key))
  }

  function MetalsApiRequest(key: string): Request {
    Request("https://metals-api.com/api/latest?access_key=" + key + "&base=USD&symbols=XAU", None)
  }

  /** What `resp.json()` gives: a value, or the message of the error it throws. */
  datatype Body = Parsed(value: Value) | Unparsable(message: string)

  /**
   * The upstream's answer to the one request a miss makes: the request fails
   * outright, or an HTTP status arrives with the body as text (`resp.text()`,
   * empty when reading it fails) and as JSON.
   */
  datatype Reply = NetworkFailure(message: string) | Http(status: nat, text: string, body: Body)

  /** `resp.ok`. */
  predicate IsOk(status: nat) {
    200 <= status <= 299
  }

  datatype PriceError =
    | MissingMetalsKey
    | UpstreamStatus(provider: Provider, status: nat, body: string)
    | UnexpectedMetalsFormat
    | Thrown(message: string)  // an error thrown by fetch, resp.json() or a property access

  /** `err.message`. */
  function Message(e: PriceError): (m: string)
    ensures e.UpstreamStatus? ==>
      var name := if e.provider == GoldApi then "GoldAPI" else "Metals-API";
      m == name + " error " + StringToNumber.NatToString(e.status) + ": " + e.body
  {
    match e
    case MissingMetalsKey => "METALS_API_KEY env var not set"
    case UpstreamStatus(p, s, b) =>
      (if p == GoldApi then "GoldAPI" else "Metals-API") + " error " + StringToNumber.NatToString(s) + ": " + b
    case UnexpectedMetalsFormat => "Unexpected metals-api response format"
    case Thrown(m) => m
  }

  /** Where a cache miss takes its price from. */
  datatype Source =
    | Fixed(price: Num)
    | LocalDefault
    | AskGoldApi(key: string)
    | AskMetalsApi(key: string)
    | NoMetalsKey

  /**
   * The decision tree of a miss: a non-NaN override, then the provider; GoldAPI
   * without a key and an unknown provider fall back to the local default,
   * Metals-API without a key fails.
   */
  function ChooseSource(cfg: Config): (s: Source)
    ensures cfg.fixedGoldPrice.Some? && cfg.fixedGoldPrice.value != NaN ==> s == Fixed(cfg.fixedGoldPrice.value)
    ensures s.Fixed? ==> cfg.fixedGoldPrice == Some(s.price) && s.price != NaN
    ensures s.AskGoldApi? <==> !s.Fixed? && cfg.provider == "GOLDAPI" && cfg.goldApiKey != ""
    ensures s.AskGoldApi? ==> s.key == cfg.goldApiKey
    ensures s.AskMetalsApi? <==> !s.Fixed? && cfg.provider == "METALSAPI" && cfg.metalsApiKey != ""
    ensures s.AskMetalsApi? ==> s.key == cfg.metalsApiKey
    ensures s == NoMetalsKey <==> !s.Fixed? && cfg.provider == "METALSAPI" && cfg.metalsApiKey == ""
    ensures s == LocalDefault <==>
      !s.Fixed? && (cfg.provider == "GOLDAPI" ==> cfg.goldApiKey == "") && cfg.provider != "METALSAPI"
  {
    if cfg.fixedGoldPrice.Some? && cfg.fixedGoldPrice.value != NaN then Fixed(cfg.fixedGoldPrice.value)
    else if cfg.provider == "GOLDAPI" then
      if cfg.goldApiKey == "" then LocalDefault else AskGoldApi(cfg.goldApiKey)
    else if cfg.provider == "METALSAPI" then
      if cfg.metalsApiKey == "" then NoMetalsKey else AskMetalsApi(cfg.metalsApiKey)
    else LocalDefault
  }

  /** The JSON body of a successful reply, or the error the reply raises. */
  function ReadReply(provider: Provider, reply: Reply): (r: Result<Value, PriceError>)
    ensures reply.Http? && !IsOk(reply.status) ==> r == Err(UpstreamStatus(provider, reply.status, reply.text))
    ensures r.Ok? <==> reply.Http? && IsOk(reply.status) && reply.body.Parsed?
    ensures r.Ok? ==> r.value == reply.body.value
  {
    match reply
    case NetworkFailure(m) => Err(Thrown(m))
    case Http(status, text, body) =>
      if !IsOk(status) then Err(UpstreamStatus(provider, status, text))
      else match body
        case Unparsable(m) => Err(Thrown(m))
        case Parsed(v) => Ok(v)
  }

  /** ASCII lower case; the only characters whose lower case is `o` or `z` are `O` and `Z`. */
  function Lower(c: char): char {
    if 'A' <= c <= 'Z' then (c as int - 'A' as int + 'a' as int) as char else c
  }

  /** `s.toLowerCase().includes('oz')`. */
  predicate MentionsOunces(s: string) {
    exists i :: 0 <= i < |s| - 1 && Lower(s[i]) == 'o' && Lower(s[i + 1]) == 'z'
  }

  /** A price per troy ounce as a price per gram. */
  function PerGram(perOunce: Num): (r: Num)
    ensures perOunce.Finite? ==> r.Finite? && r.v * OunceToGram == perOunce.v
  {
    DivBy(perOunce, OunceToGram)
  }

  /**
   * Normalises a GoldAPI body: a `unit` mentioning ounces divides `price` by
   * the troy ounce, otherwise a truthy `price_per_gram` is taken as it is,
   * and otherwise `price` is again taken per ounce.
   */
  function GoldApiPrice(j: Value): (r: Result<Num, PriceError>)
    ensures r.Err? <==> j.Nullish() || (j.Get("unit").Truthy() && !j.Get("unit").Str?)
    ensures r.Err? ==> r.error.Thrown?
    ensures r.Ok? ==>
      || r.value == PerGram(j.Get("price").ToNumber())
      || (j.Get("price_per_gram").Truthy() && r.value == j.Get("price_per_gram").ToNumber())
  {
    if j.Nullish() then Err(Thrown(CannotRead(j, "unit")))
    else
      var unit := j.Get("unit");
      if unit.Truthy() && !unit.Str? then Err(Thrown("j.unit.toLowerCase is not a function"))
      else if unit.Truthy() && MentionsOunces(unit.s) then Ok(PerGram(j.Get("price").ToNumber()))
      else if j.Get("price_per_gram").Truthy() then Ok(j.Get("price_per_gram").ToNumber())
      else Ok(PerGram(j.Get("price").ToNumber()))
  }

  /**
   * Normalises a Metals-API body: a truthy `rates.XAU` strictly between 0 and
   * 1 is inverted into a price per ounce, any other truthy rate is taken as a
   * price per ounce, and without a rate a truthy `price` is per ounce; a body
   * with neither is an error.
   */
  function MetalsApiPrice(j: Value): (r: Result<Num, PriceError>)
    ensures r.Err? ==> j.Nullish() || r.error == UnexpectedMetalsFormat
    ensures r == Err(UnexpectedMetalsFormat) <==>
      && !j.Nullish()
      && !(j.Get("rates").Truthy() && j.Get("rates").Get("XAU").Truthy())
      && !j.Get("price").Truthy()
  {
    if j.Nullish() then Err(Thrown(CannotRead(j, "rates")))
    else
      var rates := j.Get("rates");
      if rates.Truthy() && rates.Get("XAU").Truthy() then
        var rate := rates.Get("XAU").ToNumber();
        var perOunce := if rate.Finite? && 0.0 < rate.v < 1.0 then Finite(1.0 / rate.v) else rate;
        Ok(PerGram(perOunce))
      else if j.Get("price").Truthy() then Ok(PerGram(j.Get("price").ToNumber()))
      else Err(UnexpectedMetalsFormat)
  }

  /** The price a miss produces, and the upstream request it makes, if any. */
  datatype Attempt = Attempt(result: Result<Num, PriceError>, request: Option<Request>)

  function Miss(cfg: Config, reply: Reply): (a: Attempt)
    ensures a.request.Some? <==> ChooseSource(cfg).AskGoldApi? || ChooseSource(cfg).AskMetalsApi?
    ensures a.result.Err? ==> ChooseSource(cfg) == NoMetalsKey || a.request.Some?
    ensures ChooseSource(cfg).Fixed? || ChooseSource(cfg) == LocalDefault ==> a.result.Ok?
  {
    match ChooseSource(cfg)
    case Fixed(p) => Attempt(Ok(p), None)
    case LocalDefault => Attempt(Ok(Finite(LocalDefaultPrice)), None)
    case NoMetalsKey => Attempt(Err(MissingMetalsKey), None)
    case AskGoldApi(key) =>
      var j := ReadReply(GoldApi, reply);
      Attempt(if j.Err? then Err(j.error) else GoldApiPrice(j.value), Some(GoldApiRequest(key)))
    case AskMetalsApi(key) =>
      var j := ReadReply(MetalsApi, reply);
      Attempt(if j.Err? then Err(j.error) else MetalsApiPrice(j.value), Some(MetalsApiRequest(key)))
  }

  /** The cache slot `{pricePerGram, ts}`; `None` is the initial `null`. */
  datatype Slot = Slot(pricePerGram: Option<Num>, ts: int)

  const EmptySlot: Slot := Slot(None, 0)

  /** A cache hit: a truthy stored price younger than the time to live. */
  predicate Fresh(slot: Slot, now: int)
    ensures Fresh(slot, now) ==>
      slot.pricePerGram.Some? && slot.pricePerGram.value != NaN && slot.pricePerGram.value != Finite(0.0)
  {
    slot.pricePerGram.Some? && slot.pricePerGram.value.Truthy() && now - slot.ts < GoldCacheTtl
  }

  /** The price a call returns (or its error), the request it makes and the slot after it. */
  datatype Outcome = Outcome(result: Result<Num, PriceError>, request: Option<Request>, cache: Slot)

  /** `fetchGoldPricePerGramUSD()` called at time `now` with the cache holding `slot`. */
  function Fetch(slot: Slot, now: int, cfg: Config, reply: Reply): (o: Outcome)
    ensures o.cache == slot || (o.result.Ok? && o.cache == Slot(Some(o.result.value), now))
    ensures o.result.Ok? ==> o.cache.pricePerGram == Some(o.result.value)
    ensures o.request.Some? ==> !Fresh(slot, now)
  {
    if Fresh(slot, now) then Outcome(Ok(slot.pricePerGram.value), None, slot)
    else
      var a := Miss(cfg, reply);
      Outcome(a.result, a.request, if a.result.Ok? then Slot(Some(a.result.value), now) else slot)
  }
}
