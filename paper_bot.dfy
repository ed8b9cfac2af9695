/**
 * The paper-trading bot: a simulated cash balance and a map of open
 * positions, updated by one scan tick made of an exit phase (sell on target
 * or stop loss) followed by an entry phase (buy a fixed budget on a dip).
 *
 * The rules are stated once as functions over `State` values; the
 * `Portfolio` class mutates its fields in place, as the bot does, and each
 * of its phases is proved to end in the state those functions give.
 */
module PaperBot {
  import opened Wrappers
  import opened Seqs

  const TargetProfit: real := 0.10
  const StopLoss: real := 0.05
  const BuyDipThreshold: real := -2.0
  /** The budget spent on one new position. */
  const InvestAmount: real := 10000.0
  /** The fake money a fresh portfolio starts with. */
  const SeedBalance: real := 100000.0

  const Watchlist: seq<string> := [
    "RELIANCE.NS", "TCS.NS", "HDFCBANK.NS", "INFY.NS", "ICICIBANK.NS",
    "HINDUNILVR.NS", "SBIN.NS", "BHARTIARTL.NS", "ITC.NS", "KOTAKBANK.NS"
  ]

  /** One open position; `buyTime` is an opaque timestamp. */
  datatype Holding = Holding(avgPrice: real, quantity: int, buyTime: string)

  /** The persisted record: cash and the positions keyed by symbol. */
  datatype State = State(balance: real, holdings: map<string, Holding>)

  /** What the quote source reports for one symbol's day. */
  datatype DayQuote = DayQuote(previousClose: real, lastPrice: real)

  /** Every stored position holds shares bought at a positive price. */
  predicate Sound(s: State)
  {
    forall k :: k in s.holdings ==> s.holdings[k].quantity > 0 && s.holdings[k].avgPrice > 0.0
  }

  /** The state the bot starts from: the stored one, or the seed portfolio. */
  function LoadPortfolio(stored: Option<State>): (s: State)
    ensures stored.None? ==> s.balance == SeedBalance && s.holdings == map[]
    ensures stored.Some? ==> s == stored.value
  {
    if stored.Some? then stored.value else State(SeedBalance, map[])
  }

  /** Python's `int` on a float: truncation toward zero. */
  function Trunc(x: real): (n: int)
    ensures 0.0 <= x ==> 0 <= n && n as real <= x < n as real + 1.0
    ensures x < 0.0 ==> n <= 0 && n as real - 1.0 < x <= n as real
  {
    if x >= 0.0 then x.Floor else -((-x).Floor)
  }

  /** A fetched price is acted on only when it is present and not zero. */
  predicate PriceUsable(p: Option<real>)
  {
    p.Some? && p.value != 0.0
  }

  /**
   * The pair (change in percent, last price) of a day quote. A failed
   * fetch gives (0, 0); a zero previous close gives a change of 0.
   */
  function DayChange(q: Option<DayQuote>): (r: (real, real))
    ensures q.None? ==> r == (0.0, 0.0)
    ensures q.Some? ==> r.1 == q.value.lastPrice
    ensures q.Some? && q.value.previousClose == 0.0 ==> r.0 == 0.0
    ensures q.Some? && q.value.previousClose != 0.0 ==>
              r.0 * q.value.previousClose == (q.value.lastPrice - q.value.previousClose) * 100.0
  {
    match q
    case None => (0.0, 0.0)
    case Some(DayQuote(prev, current)) =>
      if prev != 0.0 then ((current - prev) / prev * 100.0, current) else (0.0, current)
  }

  /** Profit or loss of a position in percent of its cost. */
  function PnlPct(avgPrice: real, price: real): real
    requires avgPrice != 0.0
  {
    (price - avgPrice) / avgPrice * 100.0
  }

  datatype ExitReason = TargetHit | StopLossHit

  /** Whether a position is closed this tick, and why; target is tested first. */
  function ExitSignal(h: Holding, price: Option<real>): Option<ExitReason>
    requires PriceUsable(price) ==> h.avgPrice != 0.0
  {
    if !PriceUsable(price) then None
    else if PnlPct(h.avgPrice, price.value) >= TargetProfit * 100.0 then Some(TargetHit)
    else if PnlPct(h.avgPrice, price.value) <= -(StopLoss * 100.0) then Some(StopLossHit)
    else None
  }

  /** The exit phase may examine `keys` in order without a lookup or division failing. */
  predicate ExitReady(s: State, keys: seq<string>, prices: string -> Option<real>)
  {
    && Distinct(keys)
    && forall k :: k in keys ==>
         k in s.holdings && (PriceUsable(prices(k)) ==> s.holdings[k].avgPrice != 0.0)
  }

  /** Examine one held symbol: sell all of it at `price` on an exit signal. */
  function ExitStep(s: State, symbol: string, price: Option<real>): (r: State)
    requires symbol in s.holdings
    requires PriceUsable(price) ==> s.holdings[symbol].avgPrice != 0.0
    ensures forall k :: k != symbol ==> (k in r.holdings <==> k in s.holdings)
    ensures forall k :: k in r.holdings && k != symbol ==> r.holdings[k] == s.holdings[k]
    ensures r != s ==> symbol !in r.holdings
  {
    if ExitSignal(s.holdings[symbol], price).Some? then
      State(s.balance + price.value * s.holdings[symbol].quantity as real, s.holdings - {symbol})
    else
      s
  }

  /** The exit phase: every symbol of the snapshot `keys`, in order. */
  function Exits(s: State, keys: seq<string>, prices: string -> Option<real>): State
    requires ExitReady(s, keys, prices)
    decreases |keys|
  {
    if keys == [] then s
    else
      ExitReadyStep(s, keys, prices);
      Exits(ExitStep(s, keys[0], prices(keys[0])), keys[1..], prices)
  }

  /** Examining the first key leaves the rest of the snapshot ready to examine. */
  lemma ExitReadyStep(s: State, keys: seq<string>, prices: string -> Option<real>)
    requires ExitReady(s, keys, prices) && keys != []
    ensures ExitReady(ExitStep(s, keys[0], prices(keys[0])), keys[1..], prices)
  {
    forall k | k in keys[1..] ensures k != keys[0] {
      var j :| 0 <= j < |keys[1..]| && keys[1..][j] == k;
      assert keys[j + 1] == k;
    }
  }

  /** One step of the exit loop, at index `i` of the snapshot. */
  lemma ExitsUnfold(s: State, keys: seq<string>, i: nat, prices: string -> Option<real>)
    requires i < |keys| && ExitReady(s, keys[i..], prices)
    ensures keys[i] in s.holdings && (PriceUsable(prices(keys[i])) ==> s.holdings[keys[i]].avgPrice != 0.0)
    ensures ExitReady(ExitStep(s, keys[i], prices(keys[i])), keys[i + 1..], prices)
    ensures Exits(s, keys[i..], prices) == Exits(ExitStep(s, keys[i], prices(keys[i])), keys[i + 1..], prices)
  {
    assert keys[i..][1..] == keys[i + 1..];
    assert keys[i..][0] == keys[i];
    ExitReadyStep(s, keys[i..], prices);
  }

  /** The outcome of examining one watchlist symbol in the entry phase. */
  datatype EntryOutcome =
    | AlreadyHeld
    | NoPrice
    | NoDip
    | InsufficientFunds
    | ZeroQuantity
    | Bought(price: real, quantity: int)

  /** The entry rule for one symbol, against the running state `s`. */
  function EntryDecision(s: State, symbol: string, quote: Option<DayQuote>): EntryOutcome
  {
    if symbol in s.holdings then AlreadyHeld
    else
      var (changePct, price) := DayChange(quote);
      if price == 0.0 then NoPrice
      else if !(changePct < BuyDipThreshold) then NoDip
      else if !(s.balance >= InvestAmount) then InsufficientFunds
      else
        var quantity := Trunc(InvestAmount / price);
        if quantity > 0 then Bought(price, quantity) else ZeroQuantity
  }

  /** Examine one watchlist symbol: on a buy, debit the cost and open the position. */
  function EntryStep(s: State, symbol: string, quote: Option<DayQuote>, now: string): (r: State)
    ensures forall k :: k in s.holdings ==> k in r.holdings
    ensures r != s ==> symbol !in s.holdings && symbol in r.holdings
  {
    match EntryDecision(s, symbol, quote)
    case Bought(price, quantity) =>
      State(s.balance - quantity as real * price, s.holdings[symbol := Holding(price, quantity, now)])
    case _ => s
  }

  /** The entry phase: the watchlist in order, each symbol seeing the running state. */
  function Entries(s: State, watchlist: seq<string>, quotes: string -> Option<DayQuote>, now: string): State
    decreases |watchlist|
  {
    if watchlist == [] then s
    else Entries(EntryStep(s, watchlist[0], quotes(watchlist[0]), now), watchlist[1..], quotes, now)
  }

  /** One step of the entry loop, at index `i` of the watchlist. */
  lemma EntriesUnfold(s: State, watchlist: seq<string>, i: nat, quotes: string -> Option<DayQuote>, now: string)
    requires i < |watchlist|
    ensures Entries(s, watchlist[i..], quotes, now)
            == Entries(EntryStep(s, watchlist[i], quotes(watchlist[i]), now), watchlist[i + 1..], quotes, now)
  {
    assert watchlist[i..][1..] == watchlist[i + 1..];
  }

  /** `keys` lists every held symbol exactly once (a snapshot of the holdings). */
  predicate Snapshot(s: State, keys: seq<string>)
  {
    && Distinct(keys)
    && (forall k :: k in keys ==> k in s.holdings)
    && (forall k :: k in s.holdings ==> k in keys)
  }

  /** One scan tick: the exit phase over `keys`, then the entry phase over the watchlist. */
  function TickState(s: State, keys: seq<string>, prices: string -> Option<real>,
                     quotes: string -> Option<DayQuote>, now: string): State
    requires ExitReady(s, keys, prices)
  {
    Entries(Exits(s, keys, prices), Watchlist, quotes, now)
  }

  /**
   * The live portfolio record. `disk` is what the portfolio file holds:
   * every mutation is followed by a save of the whole record.
   */
  class Portfolio {
    var balance: real
    var holdings: map<string, Holding>
    ghost var disk: Option<State>

    function Current(): State
      reads this
    {
      State(balance, holdings)
    }

    /** Load the stored record, or start from the seed portfolio when there is none. */
    constructor Load(stored: Option<State>)
      ensures Current() == LoadPortfolio(stored)
      ensures disk == stored
    {
      if stored.Some? {
        balance := stored.value.balance;
        holdings := stored.value.holdings;
      } else {
        balance := SeedBalance;
        holdings := map[];
      }
      disk := stored;
    }

    /** Write the whole record to the portfolio file. */
    method SavePortfolio()
      modifies this`disk
      ensures disk == Some(Current())
    {
      disk := Some(Current());
    }

    /** Examine one held symbol at the fetched price: sell all of it on target or stop loss. */
    method CheckPosition(symbol: string, currentPrice: Option<real>)
      requires symbol in holdings
      requires PriceUsable(currentPrice) ==> holdings[symbol].avgPrice != 0.0
      modifies this
      ensures Current() == ExitStep(old(Current()), symbol, currentPrice)
      ensures Current() == old(Current()) ==> disk == old(disk)
      ensures Current() != old(Current()) ==> disk == Some(Current())
    {
      var data := holdings[symbol];
      if currentPrice.Some? && currentPrice.value != 0.0 {
        var buyPrice := data.avgPrice;
        var quantity := data.quantity;
        var pnlPct := PnlPct(buyPrice, currentPrice.value);
        if pnlPct >= TargetProfit * 100.0 {
          balance := balance + currentPrice.value * quantity as real;
          holdings := holdings - {symbol};
          SavePortfolio();
        } else if pnlPct <= -(StopLoss * 100.0) {
          balance := balance + currentPrice.value * quantity as real;
          holdings := holdings - {symbol};
          SavePortfolio();
        }
      }
    }

    /** The exit phase of one tick, over the snapshot `keys` of the held symbols. */
    method ExitPhase(keys: seq<string>, prices: string -> Option<real>)
      requires ExitReady(Current(), keys, prices)
      modifies this
      ensures Current() == Exits(old(Current()), keys, prices)
      ensures Current() == old(Current()) ==> disk == old(disk)
      ensures Current() != old(Current()) ==> disk == Some(Current())
    {
      var i := 0;
      while i < |keys|
        invariant 0 <= i <= |keys|
        invariant ExitReady(Current(), keys[i..], prices)
        invariant Exits(old(Current()), keys, prices) == Exits(Current(), keys[i..], prices)
        invariant holdings.Keys <= old(holdings).Keys
        invariant || (disk == old(disk) && Current() == old(Current()))
                  || (disk == Some(Current()) && holdings.Keys != old(holdings).Keys)
      {
        ExitsUnfold(Current(), keys, i, prices);
        CheckPosition(keys[i], prices(keys[i]));
        i := i + 1;
      }
    }

    /** Examine one watchlist symbol: buy about 10000 worth on a dip, when not held and affordable. */
    method CheckCandidate(symbol: string, quote: Option<DayQuote>, now: string)
      modifies this
      ensures Current() == EntryStep(old(Current()), symbol, quote, now)
      ensures Current() == old(Current()) ==> disk == old(disk)
      ensures Current() != old(Current()) ==> disk == Some(Current())
    {
      if symbol !in holdings {
        var (changePct, currentPrice) := DayChange(quote);
        if currentPrice != 0.0 && changePct < BuyDipThreshold {
          var investAmount := InvestAmount;
          if balance >= investAmount {
            var quantity := Trunc(investAmount / currentPrice);
            if quantity > 0 {
              var cost := quantity as real * currentPrice;
              balance := balance - cost;
              holdings := holdings[symbol := Holding(currentPrice, quantity, now)];
              SavePortfolio();
            }
          }
        }
      }
    }

    /** The entry phase of one tick over `watchlist`, stamping new positions with `now`. */
    method EntryPhase(watchlist: seq<string>, quotes: string -> Option<DayQuote>, now: string)
      modifies this
      ensures Current() == Entries(old(Current()), watchlist, quotes, now)
      ensures Current() == old(Current()) ==> disk == old(disk)
      ensures Current() != old(Current()) ==> disk == Some(Current())
    {
      var i := 0;
      while i < |watchlist|
        invariant 0 <= i <= |watchlist|
        invariant Entries(old(Current()), watchlist, quotes, now) == Entries(Current(), watchlist[i..], quotes, now)
        invariant old(holdings).Keys <= holdings.Keys
        invariant || (disk == old(disk) && Current() == old(Current()))
                  || (disk == Some(Current()) && holdings.Keys != old(holdings).Keys)
      {
        EntriesUnfold(Current(), watchlist, i, quotes, now);
        CheckCandidate(watchlist[i], quotes(watchlist[i]), now);
        i := i + 1;
      }
    }

    /** One scan tick: exits over the snapshot `keys`, then entries over the watchlist. */
    method Tick(keys: seq<string>, prices: string -> Option<real>,
                quotes: string -> Option<DayQuote>, now: string)
      requires Snapshot(Current(), keys)
      requires ExitReady(Current(), keys, prices)
      modifies this
      ensures Current() == TickState(old(Current()), keys, prices, quotes, now)
      ensures (disk == old(disk) && Current() == old(Current())) || disk == Some(Current())
    {
      ExitPhase(keys, prices);
      EntryPhase(Watchlist, quotes, now);
    }
  }
}
