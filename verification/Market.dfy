/** The records the modules exchange: the market event of events/market.py and the fill of
    execution/paper.py. Timestamps are integers. */
module Market {
  datatype Event = Event(symbol: string, close: real, ts: int)

  function Time(e: Event): real {
    e.ts as real
  }

  datatype Fill = Fill(
    id: string, symbol: string, qty: real, requested: real, price: real, slippage: real, fee: real, notional: real,
    ts: int)

  /** The signed quantity filled in a symbol. */
  function Traded(fills: seq<Fill>, symbol: string): real {
    if |fills| == 0 then 0.0
    else
      Traded(fills[..|fills| - 1], symbol) + if fills[|fills| - 1].symbol == symbol then fills[|fills| - 1].qty else 0.0
  }
}
