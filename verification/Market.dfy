/** Candles and the exact arithmetic they are used with.

    Prices are reals and timestamps are whole minutes: floating-point rounding
    and time zones are not part of the model. */
module Market {
  datatype Bar = Bar(timestamp: int, open: real, high: real, low: real, close: real)

  function Max(x: real, y: real): real {
    if x < y then y else x
  }

  function Min(x: real, y: real): real {
    if y < x then y else x
  }

  function Abs(x: real): real {
    if x < 0.0 then -x else x
  }

  /** The candle shape that the trade simulator insists on. */
  predicate ValidBar(b: Bar) {
    && b.open > 0.0 && b.high > 0.0 && b.low > 0.0 && b.close > 0.0
    && b.high >= Max(b.open, b.close)
    && b.low <= Min(b.open, b.close)
    && b.high >= b.low
  }

  predicate Chronological(bars: seq<Bar>) {
    forall i, j :: 0 <= i < j < |bars| ==> bars[i].timestamp < bars[j].timestamp
  }
}
