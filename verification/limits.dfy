/** The time units, rule records and configuration record of the plugin. */
module Limits {
  import opened Codec

  const SecondNano: U64 := 1000 * 1000 * 1000
  const MinuteNano: U64 := 60 * SecondNano
  const HourNano: U64 := 60 * MinuteNano
  const DayNano: U64 := 24 * HourNano

  /** Period of the refill timer, in milliseconds. */
  const TickMilliseconds: nat := 500

  /** The refill intervals are one second, minute, hour and day, in nanoseconds. */
  lemma NanosecondUnits()
    ensures SecondNano == 1_000_000_000
    ensures MinuteNano == 60 * SecondNano && HourNano == 60 * MinuteNano && DayNano == 24 * HourNano
    ensures DayNano == 86_400_000_000_000
  {
  }

  /** One rate limit: a key's refill amount, refill interval and capacity. */
  datatype LimitItem = LimitItem(key: string, tokensPerRefill: U64, refillIntervalNanosec: U64, maxTokens: U64)

  /** A validated configuration: its rule id, its limits by key, and where the key is read from. */
  datatype KeyRateLimitConfig = KeyRateLimitConfig(
    ruleId: int,
    limitKeys: map<string, LimitItem>,
    limitByHeader: string,
    limitByParam: string)
}
