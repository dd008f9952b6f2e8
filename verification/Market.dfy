/** Candles and signals as the replay sees them (backend/market_data/contracts.py,
    backend/strategy_engine/contracts.py). */
module Market {

  /** A UTC calendar day; stands for the ISO date string the replay uses as a key. */
  datatype Date = Date(year: int, month: int, day: int)

  datatype Moment = Moment(date: Date, second: nat)

  datatype Candle = Candle(openedAt: Moment, open: real, high: real, low: real, close: real)

  datatype Direction = Long | Short

  datatype Signal = Signal(symbol: string, direction: Direction, entry: real, stop: real, target: real)
}
