/** The trading parameters of config.py, as read by the live bot. */
module Config {

  /** Take profit once the position is up by this fraction (10%). */
  const TargetProfit: real := 0.10

  /** Cut the position once it is down by this fraction (5%). */
  const StopLoss: real := 0.05

  /** The exchange prefix of every quote key and order. */
  const Exchange: string := "NSE"

  /** The default of the safety flag: orders are only logged. */
  const DefaultDryRun: bool := true

  /** The symbols the live bot watches for entries, in scan order. */
  const Watchlist: seq<string> := [
    "RELIANCE", "TCS", "HDFCBANK", "INFY", "ICICIBANK",
    "HINDUNILVR", "SBIN", "BHARTIARTL", "ITC", "KOTAKBANK",
    "LTIM", "AXISBANK", "LT", "BAJFINANCE", "MARUTI"
  ]
}
