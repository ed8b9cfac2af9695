/**
 * Helpers of utils.py: the symbol-to-token lookup built from the broker's
 * instrument list, the length guard of the RSI oscillator, and the market
 * hours check.
 */
module Utils {
  import opened Wrappers

  /** One row of the broker's instrument list. */
  datatype Instrument = Instrument(tradingSymbol: string, instrumentToken: int)

  /** No row after `i` and before `n` carries the trading symbol of row `i`. */
  predicate LastBefore(instruments: seq<Instrument>, i: int, n: int)
    requires 0 <= i < n <= |instruments|
  {
    forall j :: i < j < n ==> instruments[j].tradingSymbol != instruments[i].tradingSymbol
  }

  /** The row at `i` is the last one carrying its trading symbol. */
  predicate LastOccurrence(instruments: seq<Instrument>, i: int)
    requires 0 <= i < |instruments|
  {
    LastBefore(instruments, i, |instruments|)
  }

  /**
   * Fold the instrument list into a map from trading symbol to instrument
   * token: every symbol of the list is a key, there are no other keys, and
   * a repeated symbol maps to the token of its last row.
   */
  method GetInstrumentLookup(instruments: seq<Instrument>) returns (lookup: map<string, int>)
    ensures forall i :: 0 <= i < |instruments| ==> instruments[i].tradingSymbol in lookup
    ensures forall s :: s in lookup ==> exists i :: 0 <= i < |instruments| && instruments[i].tradingSymbol == s
    ensures forall i :: 0 <= i < |instruments| && LastOccurrence(instruments, i) ==>
              lookup[instruments[i].tradingSymbol] == instruments[i].instrumentToken
  {
    lookup := map[];
    var n := 0;
    while n < |instruments|
      invariant 0 <= n <= |instruments|
      invariant forall i :: 0 <= i < n ==> instruments[i].tradingSymbol in lookup
      invariant forall s :: s in lookup ==> exists i :: 0 <= i < n && instruments[i].tradingSymbol == s
      invariant forall i :: 0 <= i < n && LastBefore(instruments, i, n) ==>
                  lookup[instruments[i].tradingSymbol] == instruments[i].instrumentToken
    {
      var instrument := instruments[n];
      lookup := lookup[instrument.tradingSymbol := instrument.instrumentToken];
      n := n + 1;
    }
  }

  /** The default look-back of the oscillator. */
  const RsiPeriod: int := 14

  /**
   * The guard of the RSI computation: too few prices give no value;
   * otherwise the whole price list goes on to the rolling averages.
   */
  function RsiInput(prices: seq<real>, period: int := RsiPeriod): (r: Option<seq<real>>)
    ensures r.None? <==> |prices| < period
    ensures r.Some? ==> r.value == prices
  {
    if |prices| < period then None else Some(prices)
  }

  /** The market hours check is not implemented: the market is always open. */
  function IsMarketOpen(): (open: bool)
    ensures open
  {
    true
  }
}
