/**
 * The price service's configuration, read once from the environment at
 * start-up (renart/backend/index.js lines 22-34).
 */
module Settings {
  import opened Wrappers
  import opened JsNumber
  import StringToNumber

  /** The environment variables the service reads; `None` when one is unset. */
  datatype Env = Env(
    provider: Option<string>,          // PROVIDER
    goldApiKey: Option<string>,        // GOLDAPI_KEY
    metalsApiKey: Option<string>,      // METALS_API_KEY
    goldPricePerGram: Option<string>)  // GOLD_PRICE_PER_GRAM

  datatype Config = Config(
    provider: string,
    goldApiKey: string,
    metalsApiKey: string,
    fixedGoldPrice: Option<Num>)  // `null` when no override is configured

  /** `process.env.X || fallback`: an unset or empty variable takes the fallback. */
  function OrDefault(v: Option<string>, fallback: string): (r: string)
    ensures v.Some? && v.value != "" ==> r == v.value
    ensures v.None? || v.value == "" ==> r == fallback
  {
    if v.Some? && v.value != "" then v.value else fallback
  }

  function LoadConfig(env: Env): (c: Config)
    ensures c.provider == OrDefault(env.provider, "GOLDAPI")
    ensures c.goldApiKey == OrDefault(env.goldApiKey, "")
    ensures c.metalsApiKey == OrDefault(env.metalsApiKey, "")
    ensures c.fixedGoldPrice.Some? <==> env.goldPricePerGram.Some? && env.goldPricePerGram.value != ""
    ensures c.fixedGoldPrice.Some? ==> c.fixedGoldPrice.value == StringToNumber.ToNumber(env.goldPricePerGram.value)
  {
    Config(
      OrDefault(env.provider, "GOLDAPI"),
      OrDefault(env.goldApiKey, ""),
      OrDefault(env.metalsApiKey, ""),
      if env.goldPricePerGram.Some? && env.goldPricePerGram.value != ""
      then Some(StringToNumber.ToNumber(env.goldPricePerGram.value))
      else None)
  }

  /** Without PROVIDER, or with it empty, the service uses GoldAPI. */
  lemma DefaultProviderIsGoldApi(env: Env)
    requires env.provider.None? || env.provider == Some("")
    ensures LoadConfig(env).provider == "GOLDAPI"
  {
  }

  /** An override written as a whole number of dollars is that price. */
  lemma WholeDollarOverride(env: Env, n: nat)
    requires env.goldPricePerGram == Some(StringToNumber.NatToString(n))
    ensures LoadConfig(env).fixedGoldPrice == Some(Finite(n as real))
  {
    StringToNumber.NatToStringRoundTrip(n);
  }
}
