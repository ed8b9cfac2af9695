/**
 * The live bot's scan: full-quantity SELL orders for broker holdings that
 * hit the target or the stop loss, then 1-share BUY orders for watchlist
 * symbols quoted more than 2% below yesterday's close. The broker's
 * holdings list and quote map are inputs (`None` when the call raised); a
 * division by zero part-way through a phase abandons the rest of it.
 */
module LiveBot {
  import opened Wrappers
  import opened Seqs
  import Config

  datatype Side = Buy | Sell

  datatype Order = Order(symbol: string, side: Side, quantity: int)

  /** One entry of the broker's holdings list. */
  datatype BrokerHolding = BrokerHolding(
    tradingSymbol: string, quantity: int, averagePrice: real, lastPrice: real, pnl: real)

  /** The part of a quote the entry rule reads: last price and previous close. */
  datatype Quote = Quote(lastPrice: real, close: real)

  function OrderList(o: Option<Order>): seq<Order>
  {
    if o.Some? then [o.value] else []
  }

  /**
   * The first P&L formula divides the broker's pnl by average price times
   * quantity whenever the quantity is positive, so it raises exactly when
   * the quantity is positive and the average price is zero.
   */
  predicate CostDivisionFails(h: BrokerHolding)
  {
    h.quantity > 0 && h.averagePrice == 0.0
  }

  /** P&L in percent of the average price, or 0 when that price is not positive. */
  function PnlPct(h: BrokerHolding): real
  {
    if h.averagePrice > 0.0 then (h.lastPrice - h.averagePrice) / h.averagePrice * 100.0 else 0.0
  }

  /** The exit rule for one holding: target first, then stop loss. */
  function ExitOrder(h: BrokerHolding): Option<Order>
  {
    if PnlPct(h) >= Config.TargetProfit * 100.0 then Some(Order(h.tradingSymbol, Sell, h.quantity))
    else if PnlPct(h) <= -(Config.StopLoss * 100.0) then Some(Order(h.tradingSymbol, Sell, h.quantity))
    else None
  }

  /** The orders of the exit loop; a failing division ends it. */
  function ExitOrders(hs: seq<BrokerHolding>): seq<Order>
    decreases |hs|
  {
    if hs == [] then []
    else if CostDivisionFails(hs[0]) then []
    else OrderList(ExitOrder(hs[0])) + ExitOrders(hs[1..])
  }

  /** One step of the exit loop, at index `i` of the holdings list. */
  lemma ExitOrdersUnfold(hs: seq<BrokerHolding>, i: nat)
    requires i < |hs|
    ensures ExitOrders(hs[i..]) == if CostDivisionFails(hs[i]) then [] else OrderList(ExitOrder(hs[i])) + ExitOrders(hs[i + 1..])
  {
    assert hs[i..][1..] == hs[i + 1..];
  }

  /** The index of the holding whose division fails first, or |hs| when none does. */
  function FirstFault(hs: seq<BrokerHolding>): (n: nat)
    ensures n <= |hs|
    ensures forall j :: 0 <= j < n ==> !CostDivisionFails(hs[j])
    ensures n < |hs| ==> CostDivisionFails(hs[n])
    decreases |hs|
  {
    if hs == [] || CostDivisionFails(hs[0]) then 0 else 1 + FirstFault(hs[1..])
  }

  /** The key of a symbol in the quote response. */
  function QuoteKey(symbol: string): string
  {
    Config.Exchange + ":" + symbol
  }

  /** Day change in percent against the previous close. */
  function PctChange(q: Quote): real
    requires q.close != 0.0
  {
    (q.lastPrice - q.close) / q.close * 100.0
  }

  /** The entry rule for one quoted symbol: one share on a dip of more than 2%. */
  function EntryOrder(symbol: string, q: Quote): Option<Order>
    requires q.close != 0.0
  {
    if PctChange(q) < -2.0 then Some(Order(symbol, Buy, 1)) else None
  }

  /** The orders of the entry loop; a zero close ends it. */
  function EntryOrders(watchlist: seq<string>, quotes: map<string, Quote>): seq<Order>
    decreases |watchlist|
  {
    if watchlist == [] then []
    else if QuoteKey(watchlist[0]) !in quotes then EntryOrders(watchlist[1..], quotes)
    else if quotes[QuoteKey(watchlist[0])].close == 0.0 then []
    else OrderList(EntryOrder(watchlist[0], quotes[QuoteKey(watchlist[0])])) + EntryOrders(watchlist[1..], quotes)
  }

  /** One step of the entry loop, at index `i` of the watchlist. */
  lemma EntryOrdersUnfold(watchlist: seq<string>, quotes: map<string, Quote>, i: nat)
    requires i < |watchlist|
    ensures var key := QuoteKey(watchlist[i]);
            EntryOrders(watchlist[i..], quotes) ==
              if key !in quotes then EntryOrders(watchlist[i + 1..], quotes)
              else if quotes[key].close == 0.0 then []
              else OrderList(EntryOrder(watchlist[i], quotes[key])) + EntryOrders(watchlist[i + 1..], quotes)
  {
    assert watchlist[i..][1..] == watchlist[i + 1..];
  }

  /** The index of the first quoted symbol with a zero close, or |watchlist| when none has. */
  function FirstBadQuote(watchlist: seq<string>, quotes: map<string, Quote>): (n: nat)
    ensures n <= |watchlist|
    ensures forall j :: 0 <= j < n && QuoteKey(watchlist[j]) in quotes ==> quotes[QuoteKey(watchlist[j])].close != 0.0
    ensures n < |watchlist| ==> QuoteKey(watchlist[n]) in quotes && quotes[QuoteKey(watchlist[n])].close == 0.0
    decreases |watchlist|
  {
    if watchlist == [] then 0
    else if QuoteKey(watchlist[0]) in quotes && quotes[QuoteKey(watchlist[0])].close == 0.0 then 0
    else 1 + FirstBadQuote(watchlist[1..], quotes)
  }

  /** The exit phase's orders; none when fetching the holdings raised. */
  function HoldingsOrders(holdings: Option<seq<BrokerHolding>>): seq<Order>
  {
    if holdings.Some? then ExitOrders(holdings.value) else []
  }

  /** The entry phase's orders; none when fetching the quotes raised. */
  function QuoteOrders(watchlist: seq<string>, quotes: Option<map<string, Quote>>): seq<Order>
  {
    if quotes.Some? then EntryOrders(watchlist, quotes.value) else []
  }

  /** The orders one scan places: exits first, then entries. */
  function ScanOrders(holdings: Option<seq<BrokerHolding>>, watchlist: seq<string>,
                     quotes: Option<map<string, Quote>>): seq<Order>
  {
    HoldingsOrders(holdings) + QuoteOrders(watchlist, quotes)
  }

  /** The orders that reach the broker: none in a dry run. */
  function Forwarded(dryRun: bool, orders: seq<Order>): (r: seq<Order>)
    ensures dryRun ==> r == []
    ensures !dryRun ==> r == orders
  {
    if dryRun then [] else orders
  }

  /**
   * The live bot's order desk. `requested` lists every call of the order
   * routine in order; `sent` lists those that were passed to the broker.
   * A broker error is caught inside the routine, so it never stops a scan.
   */
  class Trader {
    const dryRun: bool
    const watchlist: seq<string>
    var requested: seq<Order>
    var sent: seq<Order>

    /** The broker sees exactly the requested orders, or none of them in a dry run. */
    ghost predicate Valid()
      reads this
    {
      sent == Forwarded(dryRun, requested)
    }

    /** A desk for the configured watchlist, in dry-run mode or not. */
    constructor (dryRun: bool)
      ensures Valid()
      ensures this.dryRun == dryRun && watchlist == Config.Watchlist
      ensures requested == [] && sent == []
    {
      this.dryRun := dryRun;
      watchlist := Config.Watchlist;
      requested, sent := [], [];
    }

    /** Place a market order, or only log it in a dry run. */
    method PlaceOrder(order: Order)
      requires Valid()
      modifies this
      ensures Valid()
      ensures requested == old(requested) + [order]
      ensures sent == old(sent) + Forwarded(dryRun, [order])
    {
      requested := requested + [order];
      if !dryRun {
        sent := sent + [order];
      }
    }

    /** The exit rule for one holding whose P&L can be computed: sell all of it on target or stop loss. */
    method CheckHolding(holding: BrokerHolding)
      requires Valid()
      modifies this
      ensures Valid()
      ensures requested == old(requested) + OrderList(ExitOrder(holding))
    {
      var quantity := holding.quantity;
      var pnlPct := PnlPct(holding);
      if pnlPct >= Config.TargetProfit * 100.0 {
        PlaceOrder(Order(holding.tradingSymbol, Sell, quantity));
      } else if pnlPct <= -(Config.StopLoss * 100.0) {
        PlaceOrder(Order(holding.tradingSymbol, Sell, quantity));
      }
    }

    /** The exit phase over the fetched holdings. */
    method CheckExits(holdings: Option<seq<BrokerHolding>>)
      requires Valid()
      modifies this
      ensures Valid()
      ensures requested == old(requested) + HoldingsOrders(holdings)
    {
      if holdings.None? {
        return;
      }
      var hs := holdings.value;
      var i := 0;
      while i < |hs|
        invariant 0 <= i <= |hs|
        invariant Valid()
        invariant requested + ExitOrders(hs[i..]) == old(requested) + ExitOrders(hs)
      {
        var holding := hs[i];
        var quantity := holding.quantity;
        if quantity > 0 && holding.averagePrice == 0.0 {
          // the division raises; the handler ends the phase
          ExitOrdersUnfold(hs, i);
          break;
        }
        ghost var before := requested;
        CheckHolding(holding);
        ExitOrdersUnfold(hs, i);
        AppendAssoc(before, OrderList(ExitOrder(holding)), ExitOrders(hs[i + 1..]));
        i := i + 1;
      }
      assert i == |hs| ==> hs[i..] == [];
    }

    /** The entry phase over the watchlist `symbols` and the fetched quotes. */
    method CheckEntries(symbols: seq<string>, quotes: Option<map<string, Quote>>)
      requires Valid()
      modifies this
      ensures Valid()
      ensures requested == old(requested) + QuoteOrders(symbols, quotes)
    {
      if quotes.None? {
        return;
      }
      var q := quotes.value;
      var i := 0;
      while i < |symbols|
        invariant 0 <= i <= |symbols|
        invariant Valid()
        invariant requested + EntryOrders(symbols[i..], q) == old(requested) + EntryOrders(symbols, q)
      {
        var symbol := symbols[i];
        var key := Config.Exchange + ":" + symbol;
        EntryOrdersUnfold(symbols, q, i);
        if key in q {
          var data := q[key];
          if data.close == 0.0 {
            // the division raises; the handler ends the phase
            break;
          }
          ghost var before := requested;
          var pctChange := PctChange(data);
          if pctChange < -2.0 {
            var qty := 1;
            PlaceOrder(Order(symbol, Buy, qty));
          }
          AppendAssoc(before, OrderList(EntryOrder(symbol, data)), EntryOrders(symbols[i + 1..], q));
        }
        i := i + 1;
      }
      assert i == |symbols| ==> symbols[i..] == [];
    }

    /** One scan: the exit phase, then the entry phase over the configured watchlist. */
    method Scan(holdings: Option<seq<BrokerHolding>>, quotes: Option<map<string, Quote>>)
      requires Valid()
      modifies this
      ensures Valid()
      ensures requested == old(requested) + ScanOrders(holdings, watchlist, quotes)
    {
      ghost var before := requested;
      CheckExits(holdings);
      CheckEntries(watchlist, quotes);
      AppendAssoc(before, HoldingsOrders(holdings), QuoteOrders(watchlist, quotes));
    }
  }
}
