/**
 * `get_mock_contract_data` (set50.test7.py:20-51): a fixed table of three
 * futures contracts, each with a price, a percentage change, bid and offer
 * volumes and four trade ticks. Any other symbol fails: `base.get` yields
 * `None` and `.copy()` on it raises.
 */
module Snapshots {
  import opened Wrappers
  import opened Clock
  import opened Trades

  datatype Snapshot = Snapshot(price: real, change: real, bid: nat, offer: nat, trades: seq<Trade>)

  datatype LookupError = UnknownSymbol(symbol: string)

  /** The contracts the table knows, in the order the sidebar offers them. */
  const CONTRACTS: seq<string> := ["S50Z25", "S50H26", "S50M26"]

  /** A tick as the table lists it, before any time is attached. */
  function Tick(timestamp: string, price: real, volume: nat, kind: string): Trade {
    Trade(timestamp, price, volume, kind, None)
  }

  const S50Z25_TRADES: seq<Trade> := [
    Tick("09:45", 814.2, 300, SELL_KIND),
    Tick("11:15", 814.6, 200, BUY_KIND),
    Tick("15:45", 814.0, 500, SELL_KIND),
    Tick("16:05", 814.8, 400, BUY_KIND)]

  const S50H26_TRADES: seq<Trade> := [
    Tick("09:30", 841.8, 150, BUY_KIND),
    Tick("13:20", 842.2, 250, BUY_KIND),
    Tick("15:50", 842.0, 100, SELL_KIND),
    Tick("16:10", 842.5, 300, BUY_KIND)]

  const S50M26_TRADES: seq<Trade> := [
    Tick("09:50", 799.0, 400, SELL_KIND),
    Tick("14:10", 798.5, 300, SELL_KIND),
    Tick("15:40", 798.8, 200, BUY_KIND),
    Tick("16:20", 799.2, 250, BUY_KIND)]

  /**
   * What every snapshot of the table satisfies: four ticks, each with a
   * parsable timestamp, a positive volume, one of the two type strings and
   * no time attached yet.
   */
  predicate WellFormed(snap: Snapshot) {
    && |snap.trades| == 4
    && AllParse(snap.trades)
    && forall i | 0 <= i < |snap.trades| ::
         && snap.trades[i].volume > 0
         && (snap.trades[i].kind == BUY_KIND || snap.trades[i].kind == SELL_KIND)
         && snap.trades[i].dt.None?
  }

  function MockSnapshot(symbol: string): (r: Result<Snapshot, LookupError>)
    ensures r.Success? <==> symbol in CONTRACTS
    ensures r.Failure? ==> r.error == UnknownSymbol(symbol)
    ensures r.Success? ==> WellFormed(r.value)
  {
    if symbol == "S50Z25" then Success(Snapshot(814.0, -1.32, 20000, 50000, S50Z25_TRADES))
    else if symbol == "S50H26" then Success(Snapshot(842.1, 0.45, 18000, 22000, S50H26_TRADES))
    else if symbol == "S50M26" then Success(Snapshot(798.75, -0.62, 15000, 30000, S50M26_TRADES))
    else Failure(UnknownSymbol(symbol))
  }
}
