/**
 * What the paper bot's rules guarantee: exact bookkeeping of every buy and
 * sell, the exit and entry thresholds in terms of prices, the running
 * balance of the entry phase, and the invariant that every stored position
 * has a positive quantity and a positive average price.
 */
module PaperBotProperties {
  import opened Wrappers
  import opened Seqs
  import opened PaperBot

  /** What a position cost: average price times quantity. */
  function Cost(h: Holding): real
  {
    h.avgPrice * h.quantity as real
  }

  /** Money tied up in the open positions, at their average prices. */
  ghost function CostBasis(hs: map<string, Holding>): real
    decreases |hs|
  {
    if hs == map[] then 0.0
    else
      var k :| k in hs;
      Cost(hs[k]) + CostBasis(hs - {k})
  }

  /** The cost basis splits off any one position, whichever it is. */
  lemma {:induction false} CostBasisRemove(hs: map<string, Holding>, k: string)
    requires k in hs
    ensures CostBasis(hs) == Cost(hs[k]) + CostBasis(hs - {k})
    decreases |hs|
  {
    var j :| j in hs && CostBasis(hs) == Cost(hs[j]) + CostBasis(hs - {j});
    if j != k {
      var withoutJ, withoutK := hs - {j}, hs - {k};
      CostBasisRemove(withoutJ, k);
      CostBasisRemove(withoutK, j);
      assert withoutJ - {k} == withoutK - {j};
    }
  }

  // ---------------------------------------------------------------------
  // Exit phase
  // ---------------------------------------------------------------------

  /**
   * For a position bought at a positive price, the target fires exactly at
   * 110% of the cost or more, the stop loss exactly at 95% or less, and a
   * zero price never triggers either.
   */
  lemma ExitThresholds(h: Holding, p: real)
    requires h.avgPrice > 0.0
    ensures ExitSignal(h, Some(p)) == Some(TargetHit) <==> p >= 1.1 * h.avgPrice
    ensures ExitSignal(h, Some(p)) == Some(StopLossHit) <==> p != 0.0 && p <= 0.95 * h.avgPrice
    ensures ExitSignal(h, Some(p)) == None <==> p == 0.0 || 0.95 * h.avgPrice < p < 1.1 * h.avgPrice
  {
    var a := h.avgPrice;
    var pnl := (p - a) / a * 100.0;
    assert pnl * a == (p - a) * 100.0;
    assert pnl >= 10.0 <==> pnl * a >= 10.0 * a;
    assert pnl <= -5.0 <==> pnl * a <= -5.0 * a;
  }

  /**
   * Examining one held symbol: on an exit signal all of its shares are
   * sold at the fetched price, the balance rises by exactly price times
   * quantity and the position is deleted, so the balance plus the cost
   * basis moves by the realised profit; otherwise, and always when the
   * price fetch failed or gave 0, nothing changes.
   */
  lemma ExitStepAccounting(s: State, symbol: string, price: Option<real>)
    requires symbol in s.holdings
    requires PriceUsable(price) ==> s.holdings[symbol].avgPrice != 0.0
    ensures !PriceUsable(price) ==> ExitStep(s, symbol, price) == s
    ensures var r := ExitStep(s, symbol, price);
            var h := s.holdings[symbol];
            if ExitSignal(h, price).Some? then
              && r.balance == s.balance + price.value * h.quantity as real
              && r.holdings == s.holdings - {symbol}
              && r.balance + CostBasis(r.holdings)
                 == s.balance + CostBasis(s.holdings) + (price.value - h.avgPrice) * h.quantity as real
            else r == s
  {
    CostBasisRemove(s.holdings, symbol);
  }

  /** The symbols of the snapshot that the exit phase sells, judged on the holdings it started from. */
  ghost function Sold(s: State, keys: seq<string>, prices: string -> Option<real>): set<string>
    requires ExitReady(s, keys, prices)
  {
    set k | k in keys && ExitSignal(s.holdings[k], prices(k)).Some?
  }

  /** The proceeds of those sales: price times quantity for each sold symbol. */
  ghost function Proceeds(s: State, keys: seq<string>, prices: string -> Option<real>): real
    requires ExitReady(s, keys, prices)
    decreases |keys|
  {
    if keys == [] then 0.0
    else
      var h := s.holdings[keys[0]];
      var rest := Proceeds(s, keys[1..], prices);
      if ExitSignal(h, prices(keys[0])).Some? then prices(keys[0]).value * h.quantity as real + rest
      else rest
  }

  /** The exit phase only ever looks at holdings that were there before it began. */
  lemma ReadyOnSameHoldings(s: State, t: State, keys: seq<string>, prices: string -> Option<real>)
    requires ExitReady(s, keys, prices)
    requires forall k :: k in keys ==> k in t.holdings && t.holdings[k] == s.holdings[k]
    ensures ExitReady(t, keys, prices)
    ensures Sold(t, keys, prices) == Sold(s, keys, prices)
  {
  }

  /** A snapshot ready to examine stays ready without its first key. */
  lemma ReadyOnTail(s: State, keys: seq<string>, prices: string -> Option<real>)
    requires ExitReady(s, keys, prices) && keys != []
    ensures ExitReady(s, keys[1..], prices)
  {
    assert forall j :: 0 <= j < |keys[1..]| ==> keys[1..][j] == keys[j + 1];
  }

  /** The proceeds likewise depend only on the snapshot symbols' positions. */
  lemma {:induction false} ProceedsOnSameHoldings(s: State, t: State, keys: seq<string>, prices: string -> Option<real>)
    requires ExitReady(s, keys, prices)
    requires forall k :: k in keys ==> k in t.holdings && t.holdings[k] == s.holdings[k]
    ensures ExitReady(t, keys, prices)
    ensures Proceeds(t, keys, prices) == Proceeds(s, keys, prices)
    decreases |keys|
  {
    ReadyOnSameHoldings(s, t, keys, prices);
    if keys != [] {
      ReadyOnTail(s, keys, prices);
      ProceedsOnSameHoldings(s, t, keys[1..], prices);
      assert t.holdings[keys[0]] == s.holdings[keys[0]];
    }
  }

  /** The first key of a snapshot does not occur again in the rest of it. */
  lemma HeadNotInTail(keys: seq<string>)
    requires Distinct(keys) && keys != []
    ensures keys[0] !in keys[1..]
  {
    assert forall j :: 0 <= j < |keys[1..]| ==> keys[1..][j] == keys[j + 1];
  }

  /**
   * The whole exit phase: exactly the snapshot symbols with an exit signal
   * are gone and every other position is untouched. Each symbol is
   * therefore sold at most once.
   */
  lemma {:induction false} ExitsHoldings(s: State, keys: seq<string>, prices: string -> Option<real>)
    requires ExitReady(s, keys, prices)
    ensures Exits(s, keys, prices).holdings == s.holdings - Sold(s, keys, prices)
    decreases |keys|
  {
    if keys != [] {
      var k0 := keys[0];
      var next := ExitStep(s, k0, prices(k0));
      ExitReadyStep(s, keys, prices);
      ExitsHoldings(next, keys[1..], prices);
      HeadNotInTail(keys);
      ReadyOnSameHoldings(s, next, keys[1..], prices);
      assert Sold(s, keys, prices) == Sold(s, keys[1..], prices) +
        (if ExitSignal(s.holdings[k0], prices(k0)).Some? then {k0} else {});
    }
  }

  /** The balance after the exit phase is the balance before it plus the proceeds of its sales. */
  lemma {:induction false} ExitsBalance(s: State, keys: seq<string>, prices: string -> Option<real>)
    requires ExitReady(s, keys, prices)
    ensures Exits(s, keys, prices).balance == s.balance + Proceeds(s, keys, prices)
    decreases |keys|
  {
    if keys != [] {
      var k0 := keys[0];
      var next := ExitStep(s, k0, prices(k0));
      ExitReadyStep(s, keys, prices);
      ExitsBalance(next, keys[1..], prices);
      HeadNotInTail(keys);
      ProceedsOnSameHoldings(s, next, keys[1..], prices);
    }
  }

  /** The exit phase never puts a position back, so it keeps the invariant. */
  lemma ExitsKeepSound(s: State, keys: seq<string>, prices: string -> Option<real>)
    requires ExitReady(s, keys, prices)
    requires Sound(s)
    ensures Sound(Exits(s, keys, prices))
  {
    ExitsHoldings(s, keys, prices);
  }

  /** With no negative prices fetched, selling never lowers the balance. */
  lemma {:induction false} ProceedsNonNegative(s: State, keys: seq<string>, prices: string -> Option<real>)
    requires ExitReady(s, keys, prices)
    requires Sound(s)
    requires forall k :: prices(k).Some? ==> prices(k).value >= 0.0
    ensures Proceeds(s, keys, prices) >= 0.0
    decreases |keys|
  {
    if keys != [] {
      ExitReadyStep(s, keys, prices);
      ReadyOnSameHoldings(ExitStep(s, keys[0], prices(keys[0])), s, keys[1..], prices);
      ProceedsNonNegative(s, keys[1..], prices);
      var h := s.holdings[keys[0]];
      if ExitSignal(h, prices(keys[0])).Some? {
        assert prices(keys[0]).value * h.quantity as real >= 0.0;
      }
    }
  }

  // ---------------------------------------------------------------------
  // Entry phase
  // ---------------------------------------------------------------------

  /**
   * A dip of more than 2% below a positive previous close means a last
   * price under 98% of it.
   */
  lemma DipMeans(prev: real, last: real)
    requires prev > 0.0
    ensures DayChange(Some(DayQuote(prev, last))).0 < BuyDipThreshold <==> last < 0.98 * prev
  {
  }

  /**
   * A buy's amounts: the price is positive, the quantity is the whole
   * number of shares the budget affords, and the cost is at most the budget
   * and so at most the running balance.
   */
  lemma EntryBuyAmounts(s: State, symbol: string, quote: Option<DayQuote>)
    requires EntryDecision(s, symbol, quote).Bought?
    ensures var d := EntryDecision(s, symbol, quote);
            && symbol !in s.holdings
            && d.price == DayChange(quote).1 > 0.0
            && d.quantity > 0
            && d.quantity as real <= InvestAmount / d.price < d.quantity as real + 1.0
            && 0.0 < d.quantity as real * d.price <= InvestAmount <= s.balance
  {
  }

  /**
   * A buy's new state: the balance drops by exactly the cost and stays
   * non-negative, the new position records the price and quantity, and the
   * balance plus cost basis is unchanged.
   */
  lemma EntryStepBuy(s: State, symbol: string, quote: Option<DayQuote>, now: string)
    requires EntryDecision(s, symbol, quote).Bought?
    ensures var d := EntryDecision(s, symbol, quote);
            var r := EntryStep(s, symbol, quote, now);
            && r.balance == s.balance - d.quantity as real * d.price >= 0.0
            && r.holdings == s.holdings[symbol := Holding(d.price, d.quantity, now)]
            && r.balance + CostBasis(r.holdings) == s.balance + CostBasis(s.holdings)
  {
    EntryBuyAmounts(s, symbol, quote);
    var r := EntryStep(s, symbol, quote, now);
    assert r.holdings - {symbol} == s.holdings;
    CostBasisRemove(r.holdings, symbol);
  }

  /**
   * For a quote with a positive previous close, a symbol is bought exactly
   * when it is not held, its last price is positive, at most the budget and
   * under 98% of the previous close, and the running balance covers the
   * budget. A failed fetch or a zero previous close never buys.
   */
  lemma EntryBuysExactly(s: State, symbol: string, prev: real, last: real)
    requires prev > 0.0
    ensures EntryDecision(s, symbol, Some(DayQuote(prev, last))).Bought? <==>
              && symbol !in s.holdings
              && 0.0 < last <= InvestAmount
              && last < 0.98 * prev
              && s.balance >= InvestAmount
    ensures !EntryDecision(s, symbol, None).Bought?
    ensures !EntryDecision(s, symbol, Some(DayQuote(0.0, last))).Bought?
  {
    DipMeans(prev, last);
    if last > 0.0 {
      var x := InvestAmount / last;
      assert x * last == InvestAmount;
      assert x >= 1.0 <==> last <= InvestAmount by {
        assert x >= 1.0 <==> x * last >= last;
      }
    } else if last < 0.0 {
      assert InvestAmount / last < 0.0;
    }
  }

  /** A symbol held when it is examined is never bought, and nothing changes. */
  lemma EntryStepSkipsHeld(s: State, symbol: string, quote: Option<DayQuote>, now: string)
    requires symbol in s.holdings
    ensures EntryDecision(s, symbol, quote) == AlreadyHeld
    ensures EntryStep(s, symbol, quote, now) == s
  {
  }

  /** One entry step: the facts the whole phase is built from. */
  lemma EntryStepOutcome(s: State, symbol: string, quote: Option<DayQuote>, now: string)
    ensures var r := EntryStep(s, symbol, quote, now);
            && r.balance <= s.balance
            && (s.balance >= 0.0 ==> r.balance >= 0.0)
            && (forall k :: k in s.holdings ==> k in r.holdings && r.holdings[k] == s.holdings[k])
            && (forall k :: k in r.holdings && k !in s.holdings ==> k == symbol)
            && r.balance + CostBasis(r.holdings) == s.balance + CostBasis(s.holdings)
            && (Sound(s) ==> Sound(r))
  {
    if EntryDecision(s, symbol, quote).Bought? {
      EntryStepBuy(s, symbol, quote, now);
    }
  }

  /**
   * The whole entry phase: the balance only falls, never below zero when
   * it started non-negative, and the balance plus cost basis is conserved.
   */
  lemma {:induction false} EntriesBalance(s: State, watchlist: seq<string>,
                                          quotes: string -> Option<DayQuote>, now: string)
    ensures var r := Entries(s, watchlist, quotes, now);
            && r.balance <= s.balance
            && (s.balance >= 0.0 ==> r.balance >= 0.0)
            && r.balance + CostBasis(r.holdings) == s.balance + CostBasis(s.holdings)
    decreases |watchlist|
  {
    if watchlist != [] {
      EntryStepOutcome(s, watchlist[0], quotes(watchlist[0]), now);
      EntriesBalance(EntryStep(s, watchlist[0], quotes(watchlist[0]), now), watchlist[1..], quotes, now);
    }
  }

  /**
   * The whole entry phase keeps every position held before it as it was,
   * opens new ones only for watchlist symbols, and keeps the invariant on
   * stored positions.
   */
  lemma {:induction false} EntriesHoldings(s: State, watchlist: seq<string>,
                                           quotes: string -> Option<DayQuote>, now: string)
    ensures var r := Entries(s, watchlist, quotes, now);
            && (forall k :: k in s.holdings ==> k in r.holdings && r.holdings[k] == s.holdings[k])
            && (forall k :: k in r.holdings && k !in s.holdings ==> k in watchlist)
            && (Sound(s) ==> Sound(r))
    decreases |watchlist|
  {
    if watchlist != [] {
      EntryStepOutcome(s, watchlist[0], quotes(watchlist[0]), now);
      EntriesHoldings(EntryStep(s, watchlist[0], quotes(watchlist[0]), now), watchlist[1..], quotes, now);
      forall k | k in watchlist[1..] ensures k in watchlist {
        var j :| 0 <= j < |watchlist[1..]| && watchlist[1..][j] == k;
        assert watchlist[j + 1] == k;
      }
    }
  }

  /**
   * A symbol bought earlier in the same pass is held when it comes round
   * again, so a watchlist that lists it twice buys it once.
   */
  lemma BoughtOnceInAPass(s: State, symbol: string, quotes: string -> Option<DayQuote>, now: string)
    requires EntryDecision(s, symbol, quotes(symbol)).Bought?
    ensures var once := EntryStep(s, symbol, quotes(symbol), now);
            Entries(s, [symbol, symbol], quotes, now) == once && symbol in once.holdings
  {
    var once := EntryStep(s, symbol, quotes(symbol), now);
    assert [symbol, symbol][1..] == [symbol];
    assert Entries(once, [symbol], quotes, now) == EntryStep(once, symbol, quotes(symbol), now);
  }

  // ---------------------------------------------------------------------
  // One tick
  // ---------------------------------------------------------------------

  /** A sound portfolio with a snapshot of its keys can run the exit phase on any prices. */
  lemma SoundIsReady(s: State, keys: seq<string>, prices: string -> Option<real>)
    requires Sound(s) && Snapshot(s, keys)
    ensures ExitReady(s, keys, prices)
  {
  }

  /**
   * A tick of a sound portfolio leaves it sound, so the next tick's
   * divisions by the average price are defined; with no negative fetched
   * prices a non-negative balance stays non-negative.
   */
  lemma TickKeepsInvariant(s: State, keys: seq<string>, prices: string -> Option<real>,
                           quotes: string -> Option<DayQuote>, now: string)
    requires Sound(s) && Snapshot(s, keys)
    requires s.balance >= 0.0
    requires forall k :: prices(k).Some? ==> prices(k).value >= 0.0
    ensures ExitReady(s, keys, prices)
    ensures Sound(TickState(s, keys, prices, quotes, now))
    ensures TickState(s, keys, prices, quotes, now).balance >= 0.0
  {
    SoundIsReady(s, keys, prices);
    ExitsKeepSound(s, keys, prices);
    ExitsHoldings(s, keys, prices);
    ExitsBalance(s, keys, prices);
    ProceedsNonNegative(s, keys, prices);
    EntriesBalance(Exits(s, keys, prices), Watchlist, quotes, now);
    EntriesHoldings(Exits(s, keys, prices), Watchlist, quotes, now);
  }

  // ---------------------------------------------------------------------
  // Worked scenarios
  // ---------------------------------------------------------------------

  /** Cost 100, 10 shares, price 112: target hit, balance 100000 becomes 101120. */
  lemma TargetScenario(now: string)
    ensures var s := State(100000.0, map["SYMBOL_X" := Holding(100.0, 10, now)]);
            Exits(s, ["SYMBOL_X"], _ => Some(112.0)) == State(101120.0, map[])
  {
    var s := State(100000.0, map["SYMBOL_X" := Holding(100.0, 10, now)]);
    ExitThresholds(s.holdings["SYMBOL_X"], 112.0);
    assert s.holdings - {"SYMBOL_X"} == map[];
  }

  /** The same position at price 94: stop loss hit, balance becomes 100940. */
  lemma StopLossScenario(now: string)
    ensures var s := State(100000.0, map["SYMBOL_X" := Holding(100.0, 10, now)]);
            Exits(s, ["SYMBOL_X"], _ => Some(94.0)) == State(100940.0, map[])
  {
    var s := State(100000.0, map["SYMBOL_X" := Holding(100.0, 10, now)]);
    ExitThresholds(s.holdings["SYMBOL_X"], 94.0);
    assert s.holdings - {"SYMBOL_X"} == map[];
  }

  /** Previous close 50, last 48.5 (a 3% dip): 206 shares are bought. */
  lemma DipScenario(s: State)
    requires "SYMBOL_Y" !in s.holdings && s.balance >= InvestAmount
    ensures EntryDecision(s, "SYMBOL_Y", Some(DayQuote(50.0, 48.5))) == Bought(48.5, 206)
  {
    DipMeans(50.0, 48.5);
    assert InvestAmount / 48.5 == 206.0 + 9.0 / 48.5;
  }

  /**
   * Balance 20000 and three dips priced 9000: the first two are bought and
   * the third finds only 2000 left, because each check sees the balance
   * already debited by the buys before it.
   */
  lemma RunningBalanceScenario(now: string)
    ensures var quotes := (_: string) => Some(DayQuote(10000.0, 9000.0));
            var afterB := State(2000.0, map["A" := Holding(9000.0, 1, now), "B" := Holding(9000.0, 1, now)]);
            && Entries(State(20000.0, map[]), ["A", "B", "C"], quotes, now) == afterB
            && EntryDecision(afterB, "C", quotes("C")) == InsufficientFunds
  {
    var quotes := (_: string) => Some(DayQuote(10000.0, 9000.0));
    var s0 := State(20000.0, map[]);
    var s1 := State(11000.0, map["A" := Holding(9000.0, 1, now)]);
    var s2 := State(2000.0, map["A" := Holding(9000.0, 1, now), "B" := Holding(9000.0, 1, now)]);
    assert Trunc(InvestAmount / 9000.0) == 1;
    assert EntryStep(s0, "A", quotes("A"), now) == s1;
    assert EntryStep(s1, "B", quotes("B"), now) == s2;
    assert EntryStep(s2, "C", quotes("C"), now) == s2;
    assert ["A", "B", "C"][1..] == ["B", "C"];
    assert ["B", "C"][1..] == ["C"];
    assert Entries(s2, ["C"], quotes, now) == s2;
    assert Entries(s1, ["B", "C"], quotes, now) == s2;
  }
}
