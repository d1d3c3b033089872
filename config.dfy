/** `TurnstileConfig`: the middleware's read-only configuration. */
module Config {
  import opened Results

  newtype u64 = x: int | 0 <= x < 0x1_0000_0000_0000_0000

  const DefaultTimeoutSecs: u64 := 5

  datatype TurnstileConfig = TurnstileConfig(secretKey: string, timeoutSecs: Option<u64>)

  /** `TurnstileConfig::new`: keeps the secret and sets the five-second default timeout. */
  function New(secretKey: string): (c: TurnstileConfig)
    ensures c.secretKey == secretKey
    ensures c.timeoutSecs == Some(5)
  {
    TurnstileConfig(secretKey, Some(DefaultTimeoutSecs))
  }
}
