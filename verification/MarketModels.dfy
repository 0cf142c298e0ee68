/** One-minute candles as the exchange adapter hands them over. */
module MarketModels {

  /** Kline open times are whole minutes, so a candle carries its open time as a minute count since the epoch. */
  datatype Candle1m = Candle1m(
    symbol: string, openMinute: int,
    openPrice: real, highPrice: real, lowPrice: real, closePrice: real,
    volume: real, turnover: real)

  /** Microseconds in one minute, the unit in which trade times are counted. */
  const MINUTE := 60_000_000

  function OpenTime(c: Candle1m): int {
    c.openMinute * MINUTE
  }

  function CloseTime(c: Candle1m): int {
    (c.openMinute + 1) * MINUTE
  }
}
