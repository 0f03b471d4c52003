/** Value types shared by the hedger and the edge: bars, resolutions, sides and optional values.
    Decimals and floating-point fractions are modelled as exact reals. */
module Domain {

  datatype Option<+T> = None | Some(value: T)

  datatype Result<+T, +E> = Ok(value: T) | Err(error: E)

  datatype Direction = Long | Short

  datatype Side = Buy | Sell

  datatype Resolution = M1 | M5 | M15 | M30 | H1 | H4 | H12 | D1

  function Minutes(r: Resolution): (m: nat)
    ensures m > 0
  {
    match r
    case M1 => 1
    case M5 => 5
    case M15 => 15
    case M30 => 30
    case H1 => 60
    case H4 => 240
    case H12 => 720
    case D1 => 1440
  }

  function IntervalMs(r: Resolution): (ms: nat)
    ensures ms > 0
  {
    Minutes(r) * 60000
  }

  function Max(a: real, b: real): real {
    if a < b then b else a
  }

  function Min(a: real, b: real): real {
    if b < a then b else a
  }

  function Abs(x: real): real {
    if x < 0.0 then -x else x
  }

  datatype RawBar = RawBar(
    openTime: int, resolution: Resolution,
    open: real, high: real, low: real, close: real, volume: real, trades: nat)

  /** What `Bar::new` validates, plus the sign rules of the price and quantity types. */
  predicate ValidOhlc(b: RawBar) {
    && 0.0 <= b.low <= b.open <= b.high
    && b.low <= b.close <= b.high
    && 0.0 <= b.volume
  }

  type Bar = b: RawBar | ValidOhlc(b) witness RawBar(0, M1, 0.0, 0.0, 0.0, 0.0, 0.0, 0)

  /** An absolute target: the signed net notional and the unsigned gross exposure. */
  datatype TargetPosition = TargetPosition(notional: real, gross: real)

  function Single(notional: real): TargetPosition {
    TargetPosition(notional, Abs(notional))
  }

  datatype CapitalView = CapitalView(equity: real, availableMargin: real)
}
