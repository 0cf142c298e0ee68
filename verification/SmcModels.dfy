/** Candles and detector results of the analysis library. */
module SmcModels {
  import opened Wrappers
  import CandleAggregation

  datatype Bias = Bullish | Bearish

  /** A closed candle. */
  datatype Candle = Candle(
    symbol: string, timeframe: CandleAggregation.Timeframe, openTime: int, closeTime: int,
    openPrice: real, highPrice: real, lowPrice: real, closePrice: real, volume: real)
  {
    function Body(): real {
      if closePrice < openPrice then openPrice - closePrice else closePrice - openPrice
    }

    function Range(): real {
      highPrice - lowPrice
    }

    function Direction(): Option<Bias> {
      if closePrice > openPrice then Some(Bullish)
      else if closePrice < openPrice then Some(Bearish)
      else None
    }
  }

  /** What the candle constructor enforces. */
  predicate ValidCandle(c: Candle) {
    && c.openTime < c.closeTime
    && c.lowPrice <= c.openPrice <= c.highPrice && c.lowPrice <= c.closePrice <= c.highPrice
    && c.volume >= 0.0
  }

  datatype SwingKind = High | Low

  datatype Swing = Swing(kind: SwingKind, index: nat, confirmation: nat, time: int, price: real)

  datatype BreakKind = Bos | Choch

  datatype StructureBreak = StructureBreak(
    kind: BreakKind, direction: Bias, index: nat, time: int, closePrice: real,
    brokenSwing: Swing, priorTrend: Option<Bias>)

  datatype LiquiditySweep = LiquiditySweep(
    direction: Bias, index: nat, time: int, level: real, extremePrice: real, sweptSwing: Swing)

  datatype EqualLevel = EqualLevel(kind: SwingKind, first: Swing, second: Swing, price: real, tolerance: real)

  datatype Displacement = Displacement(
    direction: Bias, index: nat, time: int, bodySize: real, rangeSize: real, atr: real, averageRange: real)

  datatype ZoneStatus = Open | PartiallyFilled | Filled | ZoneInvalidated

  /** How far a zone has got: its status, the first candle that touched it, the candle that ended it. */
  datatype ZoneProgress = ZoneProgress(status: ZoneStatus, firstTouch: Option<nat>, resolved: Option<nat>)

  datatype FairValueGap = FairValueGap(
    direction: Bias, startIndex: nat, createdIndex: nat, createdAt: int,
    lowerPrice: real, upperPrice: real, progress: ZoneProgress)

  datatype OrderBlock = OrderBlock(
    direction: Bias, candleIndex: nat, createdIndex: nat, createdAt: int,
    lowerPrice: real, upperPrice: real, breakEvent: StructureBreak, progress: ZoneProgress)
}
