/**
 * What the live bot's scan guarantees: which holdings get a full SELL and
 * which watchlist symbols a 1-share BUY, what a division by zero part-way
 * through a phase costs, and what a dry run sends to the broker.
 */
module LiveBotProperties {
  import opened Wrappers
  import opened Seqs
  import Config
  import opened LiveBot

  // ---------------------------------------------------------------------
  // Exit phase
  // ---------------------------------------------------------------------

  /**
   * A holding with a positive average price is sold, all of it, exactly
   * when its last price is at least 110% or at most 95% of the average;
   * a holding whose average price is not positive is never sold.
   */
  lemma ExitOrderRule(h: BrokerHolding)
    ensures ExitOrder(h).Some? ==> ExitOrder(h).value == Order(h.tradingSymbol, Sell, h.quantity)
    ensures ExitOrder(h).Some? <==>
              h.averagePrice > 0.0 &&
              (h.lastPrice >= 1.1 * h.averagePrice || h.lastPrice <= 0.95 * h.averagePrice)
  {
  }

  /**
   * The orders of the exit loop are exactly the exit orders of the
   * holdings before the first one whose division fails.
   */
  lemma {:induction false} ExitOrdersMembership(hs: seq<BrokerHolding>, o: Order)
    ensures o in ExitOrders(hs) <==> exists j :: 0 <= j < FirstFault(hs) && ExitOrder(hs[j]) == Some(o)
    decreases |hs|
  {
    if hs != [] && !CostDivisionFails(hs[0]) {
      ExitOrdersMembership(hs[1..], o);
      assert FirstFault(hs) == 1 + FirstFault(hs[1..]);
      if o in ExitOrders(hs) {
        if ExitOrder(hs[0]) != Some(o) {
          var j :| 0 <= j < FirstFault(hs[1..]) && ExitOrder(hs[1..][j]) == Some(o);
          assert ExitOrder(hs[j + 1]) == Some(o);
        }
      } else {
        forall j | 0 <= j < FirstFault(hs) ensures ExitOrder(hs[j]) != Some(o) {
          if j > 0 {
            assert hs[j] == hs[1..][j - 1];
          }
        }
      }
    }
  }

  /** At most one order per holding examined, and every one a SELL. */
  lemma {:induction false} ExitOrdersShape(hs: seq<BrokerHolding>)
    ensures |ExitOrders(hs)| <= FirstFault(hs)
    ensures forall o :: o in ExitOrders(hs) ==> o.side == Sell
    decreases |hs|
  {
    if hs != [] && !CostDivisionFails(hs[0]) {
      ExitOrdersShape(hs[1..]);
    }
  }

  /**
   * A holding with a positive quantity and a zero average price ends the
   * exit loop: the holdings after it get no orders.
   */
  lemma {:induction false} FaultAbandonsExits(hs: seq<BrokerHolding>, i: nat)
    requires i < |hs| && hs[i].quantity > 0 && hs[i].averagePrice == 0.0
    ensures ExitOrders(hs) == ExitOrders(hs[..i])
    decreases i
  {
    if i > 0 && !CostDivisionFails(hs[0]) {
      FaultAbandonsExits(hs[1..], i - 1);
      assert hs[1..][..i - 1] == hs[..i][1..];
    }
  }

  // ---------------------------------------------------------------------
  // Entry phase
  // ---------------------------------------------------------------------

  /** A quote with a positive close gives one BUY of one share exactly when the last price is under 98% of it. */
  lemma EntryOrderRule(symbol: string, q: Quote)
    requires q.close > 0.0
    ensures EntryOrder(symbol, q).Some? <==> q.lastPrice < 0.98 * q.close
    ensures EntryOrder(symbol, q).Some? ==> EntryOrder(symbol, q).value == Order(symbol, Buy, 1)
  {
  }

  /**
   * The orders of the entry loop are exactly the entry orders of the
   * quoted watchlist symbols before the first one with a zero close; the
   * holdings play no part.
   */
  lemma {:induction false} EntryOrdersMembership(watchlist: seq<string>, quotes: map<string, Quote>, o: Order)
    ensures o in EntryOrders(watchlist, quotes) <==>
              exists j :: 0 <= j < FirstBadQuote(watchlist, quotes) && QuoteKey(watchlist[j]) in quotes &&
                          quotes[QuoteKey(watchlist[j])].close != 0.0 &&
                          EntryOrder(watchlist[j], quotes[QuoteKey(watchlist[j])]) == Some(o)
    decreases |watchlist|
  {
    if watchlist != [] {
      var key := QuoteKey(watchlist[0]);
      if key !in quotes || quotes[key].close != 0.0 {
        var rest := watchlist[1..];
        EntryOrdersMembership(rest, quotes, o);
        assert FirstBadQuote(watchlist, quotes) == 1 + FirstBadQuote(rest, quotes);
        if o in EntryOrders(watchlist, quotes) {
          if !(key in quotes && EntryOrder(watchlist[0], quotes[key]) == Some(o)) {
            var j :| 0 <= j < FirstBadQuote(rest, quotes) && QuoteKey(rest[j]) in quotes &&
                     quotes[QuoteKey(rest[j])].close != 0.0 &&
                     EntryOrder(rest[j], quotes[QuoteKey(rest[j])]) == Some(o);
            assert watchlist[j + 1] == rest[j];
          }
        } else {
          forall j | 0 <= j < FirstBadQuote(watchlist, quotes) && QuoteKey(watchlist[j]) in quotes &&
                     quotes[QuoteKey(watchlist[j])].close != 0.0
            ensures EntryOrder(watchlist[j], quotes[QuoteKey(watchlist[j])]) != Some(o)
          {
            if j > 0 {
              assert watchlist[j] == rest[j - 1];
            }
          }
        }
      }
    }
  }

  /** Every entry order buys exactly one share of a watchlist symbol, at most one per symbol examined. */
  lemma {:induction false} EntryOrdersShape(watchlist: seq<string>, quotes: map<string, Quote>)
    ensures |EntryOrders(watchlist, quotes)| <= FirstBadQuote(watchlist, quotes)
    ensures forall o :: o in EntryOrders(watchlist, quotes) ==>
              o.side == Buy && o.quantity == 1 && o.symbol in watchlist
    decreases |watchlist|
  {
    if watchlist != [] {
      EntryOrdersShape(watchlist[1..], quotes);
      forall k | k in watchlist[1..] ensures k in watchlist {
        var j :| 0 <= j < |watchlist[1..]| && watchlist[1..][j] == k;
        assert watchlist[j + 1] == k;
      }
    }
  }

  /** A quoted symbol with a zero close ends the entry loop: later symbols get no orders. */
  lemma {:induction false} ZeroCloseAbandonsEntries(watchlist: seq<string>, quotes: map<string, Quote>, i: nat)
    requires i < |watchlist|
    requires QuoteKey(watchlist[i]) in quotes && quotes[QuoteKey(watchlist[i])].close == 0.0
    ensures EntryOrders(watchlist, quotes) == EntryOrders(watchlist[..i], quotes)
    decreases i
  {
    if i > 0 {
      var key := QuoteKey(watchlist[0]);
      if key !in quotes || quotes[key].close != 0.0 {
        ZeroCloseAbandonsEntries(watchlist[1..], quotes, i - 1);
        assert watchlist[1..][..i - 1] == watchlist[..i][1..];
      }
    }
  }

  /**
   * The entry loop has no held or already-ordered check of its own: it buys
   * at most once per symbol only because the watchlist lists each symbol once.
   */
  lemma {:induction false} DistinctWatchlistBuysOnce(watchlist: seq<string>, quotes: map<string, Quote>)
    requires Distinct(watchlist)
    ensures var orders := EntryOrders(watchlist, quotes);
            forall i, j :: 0 <= i < j < |orders| ==> orders[i].symbol != orders[j].symbol
    decreases |watchlist|
  {
    if watchlist != [] {
      var tail := watchlist[1..];
      assert Distinct(tail) by {
        forall i, j | 0 <= i < j < |tail| ensures tail[i] != tail[j] {
          assert tail[i] == watchlist[i + 1] && tail[j] == watchlist[j + 1];
        }
      }
      DistinctWatchlistBuysOnce(tail, quotes);
      EntryOrdersShape(tail, quotes);
      assert watchlist[0] !in tail by {
        forall j | 0 <= j < |tail| ensures tail[j] != watchlist[0] {
          assert tail[j] == watchlist[j + 1];
        }
      }
    }
  }

  /** The configured watchlist lists each symbol once. */
  lemma ConfiguredWatchlistDistinct()
    ensures Distinct(Config.Watchlist)
  {
  }

  // ---------------------------------------------------------------------
  // Worked scenarios
  // ---------------------------------------------------------------------

  /**
   * A holding with 5 shares at average price 0 comes first: the exit loop
   * stops there, so a later holding 20% up is not sold.
   */
  lemma FaultScenario()
    ensures var later := BrokerHolding("TCS", 10, 100.0, 120.0, 200.0);
            && ExitOrders([later]) == [Order("TCS", Sell, 10)]
            && ExitOrders([BrokerHolding("INFY", 5, 0.0, 50.0, 0.0), later]) == []
  {
    var later := BrokerHolding("TCS", 10, 100.0, 120.0, 200.0);
    ExitOrderRule(later);
    assert [later][1..] == [];
  }

  /**
   * A holdings list that names the same position twice is sold twice, and
   * a watchlist that names a symbol twice is bought twice.
   */
  lemma RepeatsOrderTwice()
    ensures var h := BrokerHolding("TCS", 10, 100.0, 120.0, 200.0);
            ExitOrders([h, h]) == [Order("TCS", Sell, 10), Order("TCS", Sell, 10)]
    ensures EntryOrders(["TCS", "TCS"], map["NSE:TCS" := Quote(97.0, 100.0)]) ==
            [Order("TCS", Buy, 1), Order("TCS", Buy, 1)]
  {
    var h := BrokerHolding("TCS", 10, 100.0, 120.0, 200.0);
    ExitOrderRule(h);
    assert [h][1..] == [];
    assert ExitOrders([h]) == [Order("TCS", Sell, 10)];
    assert [h, h][1..] == [h];
    EntryOrderRule("TCS", Quote(97.0, 100.0));
    assert ["TCS", "TCS"][1..] == ["TCS"] && ["TCS"][1..] == [];
    assert QuoteKey("TCS") == "NSE:TCS";
  }

  /** A symbol already held and quoted 3% down is bought again: the entry rule ignores holdings. */
  lemma BuysHeldSymbol()
    ensures ScanOrders(Some([BrokerHolding("TCS", 3, 100.0, 100.0, 0.0)]), ["TCS"],
                       Some(map["NSE:TCS" := Quote(97.0, 100.0)])) == [Order("TCS", Buy, 1)]
  {
    var h := BrokerHolding("TCS", 3, 100.0, 100.0, 0.0);
    ExitOrderRule(h);
    EntryOrderRule("TCS", Quote(97.0, 100.0));
    assert [h][1..] == [];
    assert ["TCS"][1..] == [];
    assert QuoteKey("TCS") == "NSE:TCS";
  }

  // ---------------------------------------------------------------------
  // Dry run
  // ---------------------------------------------------------------------

  /** A scan in dry-run mode decides its orders but sends none of them to the broker. */
  method DryRunScan(holdings: Option<seq<BrokerHolding>>, quotes: Option<map<string, Quote>>)
    returns (requested: seq<Order>, sent: seq<Order>)
    ensures requested == ScanOrders(holdings, Config.Watchlist, quotes)
    ensures sent == []
  {
    var desk := new Trader(Config.DefaultDryRun);
    desk.Scan(holdings, quotes);
    requested, sent := desk.requested, desk.sent;
  }

  /** A scan with dry run off passes every order it decides to the broker, in order. */
  method LiveScan(holdings: Option<seq<BrokerHolding>>, quotes: Option<map<string, Quote>>)
    returns (requested: seq<Order>, sent: seq<Order>)
    ensures requested == ScanOrders(holdings, Config.Watchlist, quotes)
    ensures sent == requested
  {
    var desk := new Trader(false);
    desk.Scan(holdings, quotes);
    requested, sent := desk.requested, desk.sent;
  }
}
