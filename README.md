# Paper and live trading bots: a Dafny model

This project models the decision core of a small Indian-equities trading bot with two front ends.

**The paper bot** (`paper_bot.py`) keeps a fake portfolio: a cash balance and a map from symbol to position (average price, quantity, buy time). Every scan tick runs two phases.

- **Exit phase.** It walks a snapshot of the held symbols. It sells every share of a position at the fetched price once the P&L reaches +10% (target, tested first) or falls to −5% (stop loss). The balance is credited with price × quantity, the position is deleted and the file is rewritten.
- **Entry phase.** It walks its fixed ten-symbol watchlist and skips symbols that are held at the moment they are checked. Each symbol down more than 2% on the day gets `int(10000 / price)` shares, provided the running balance is at least 10000. The cost is debited in place, so later symbols see the reduced balance.

The model is a `Portfolio` class whose fields are the balance and the holdings map. Its methods, `ExitPhase`, `EntryPhase` and `Tick`, are proved equal to pure folds (`Exits`, `Entries`, `TickState`) over per-symbol steps. Lemmas about those folds then prove the main facts:

- the bookkeeping is exact;
- the thresholds correspond to 110% / 95% of cost and a 98% dip;
- balance plus cost basis is conserved by every buy;
- a tick keeps every stored position at a positive quantity and price, so the next tick's division by the average price is defined;
- with no negative fetched price, a non-negative balance stays non-negative.

**The live bot** (`trading_bot.py`) scans the broker's holdings and a quote map.

- It places a full-quantity SELL order on target or stop loss.
- It places a 1-share BUY order for each watchlist symbol quoted more than 2% below yesterday's close.
- The BUY has no held-symbol check and no balance check.
- An exception part-way through a phase abandons the rest of that phase. For the exit phase this is the division on line 81 (positive quantity, zero average price). For the entry phase it is a zero close on line 131.
- In dry-run mode the order routine only logs.

The model is a `Trader` class whose `requested` field records every order decided and whose `sent` field records the orders passed to the broker. The scan is proved equal to the pure `ScanOrders`. Lemmas characterise which orders appear, exactly, and what a fault costs.

**The helpers** (`utils.py`):
- the instrument list folds into a symbol → token map, and the last occurrence of a symbol wins;
- the RSI routine returns nothing for fewer than `period` prices;
- the market-hours check always answers "open".

### Modelling decisions
- Fetches are inputs. `prices: string -> Option<real>` is the paper bot's price fetch. `None` is the caught exception. A price of 0 is treated like `None`, as the falsy test on line 70 does. `quotes: string -> Option<DayQuote>` is the raw previous close and last price. `DayChange` applies `get_day_change`'s rules: a falsy previous close gives change 0, and an exception gives `(0, 0)`. The live bot's holdings and quote map are `Option` values, with `None` when the broker call raised.
- The paper bot's dict iteration order is the `keys` input of the exit phase. `Tick` requires `keys` to be a snapshot of the holdings.
- `int(x)` is truncation toward zero (`Trunc`). When the price is positive it equals the floor. For a negative price it gives a quantity ≤ 0, so no buy happens.
- `save_portfolio` is a write to the ghost field `disk`. The per-symbol steps `CheckPosition` and `CheckCandidate` ensure that the file is rewritten with the whole current state exactly when the state changed, and is untouched otherwise. `ExitPhase` only deletes positions and `EntryPhase` only opens new ones, so each phase also ensures that same exact pair. `Tick` ensures that the file is either untouched (and so is the state) or holds the whole current state; a tick that sells a position and then buys it back can end in the old state after writing the file.
- `buy_time` is one opaque timestamp `now` per tick. One clock reading per tick is a simplification.
- The dry-run flag is a constructor parameter of `Trader`. The configured default is `true`.

### Behaviour worth knowing
- In the live bot, one quoted watchlist symbol with a zero close ends the entry phase: no later symbol is examined. Likewise, one holding with a positive quantity and a zero average price ends the exit phase. A holding with zero quantity and a zero average price does not, because the division on line 81 is only evaluated for a positive quantity.
- The live bot buys symbols it already holds and never looks at a balance.
- The paper bot's entry phase checks and debits the portfolio's own balance in place, so each symbol sees the balance left by the buys before it.
- The paper bot cannot sell a symbol twice in one tick. Its exit phase visits each snapshot key once, and the position is gone after its sale. Nor can it buy a symbol twice in one pass, because its held check skips a symbol it already holds (`BoughtOnceInAPass`).
- The live bot has neither guard. It orders at most one SELL per holdings entry (`ExitOrdersShape`), so a holdings list that names a position twice is sold twice. It orders at most one BUY per watchlist entry, so a repeated watchlist symbol is bought twice (`RepeatsOrderTwice`). It buys each symbol at most once per scan only because the configured watchlist has no repeats (`DistinctWatchlistBuysOnce`, `ConfiguredWatchlistDistinct`).
- The paper bot's `save_portfolio` has no error handler, so a failed write would end `run_paper_bot`. The model's save always succeeds. The live bot writes no file.

## Model

| member | source | states |
|---|---|---|
| PaperBot.LoadPortfolio | paper_bot.py:22-26 | no stored file gives balance 100000 and no holdings; otherwise the stored record |
| PaperBot.Trunc | paper_bot.py:112 | the whole part toward zero: for x ≥ 0, n ≤ x < n+1; for x < 0, n−1 < x ≤ n |
| PaperBot.DayChange | paper_bot.py:42-54 | failed fetch gives (0, 0); otherwise the last price, with change 0 for a zero previous close and change × prev = (last − prev) × 100 otherwise |
| PaperBot.ExitStep | paper_bot.py:66-91 | examining one symbol changes no other symbol's position, and a step that changes anything has sold that symbol's position |
| PaperBot.ExitReadyStep | paper_bot.py:65-67 | after one symbol of a distinct snapshot, the remaining symbols are still held with usable divisors |
| PaperBot.PriceUsable | paper_bot.py:70-71 | a fetched price is used unless the fetch failed or gave 0; a failed or zero price leaves the step unchanged (`ExitStepAccounting`) |
| PaperBot.PnlPct | paper_bot.py:76 | P&L in percent of the average price, whose thresholds are stated as prices in `ExitThresholds` |
| PaperBot.ExitSignal | paper_bot.py:70-91 | target before stop loss on a usable price; characterised as 110% / 95% of cost in `ExitThresholds` |
| PaperBot.Exits | paper_bot.py:65-91 | the exit phase over a snapshot; its holdings and balance are characterised in `ExitsHoldings` and `ExitsBalance` |
| PaperBot.EntryDecision | paper_bot.py:96-113 | held, zero price, no dip, insufficient funds, zero quantity or a buy, in the code's order; the exact buy condition is `EntryBuysExactly` |
| PaperBot.EntryStep | paper_bot.py:113-121 | one entry step keeps every held symbol, and a step that changes anything has opened a position in the symbol, which was not held; its buy and skip effects are `EntryStepBuy`, `EntryStepSkipsHeld` and `EntryStepOutcome` |
| PaperBot.Entries | paper_bot.py:94-124 | the entry phase over the watchlist with a running state; characterised in `EntriesBalance` and `EntriesHoldings` |
| PaperBot.TickState | paper_bot.py:61-124 | exits then entries over the ten-symbol watchlist; its invariant is `TickKeepsInvariant` |
| PaperBot.Portfolio.Load | paper_bot.py:22-26 | the new portfolio is the loaded record (or the seed) and the file is as found |
| PaperBot.Portfolio.SavePortfolio | paper_bot.py:28-30 | the file holds the whole current state |
| PaperBot.Portfolio.CheckPosition | paper_bot.py:67-91 | the new state is one exit step on the old state; the file is rewritten with the whole state exactly when it changed |
| PaperBot.Portfolio.ExitPhase | paper_bot.py:64-91 | the new state is the exit fold over the snapshot keys in order; the file is rewritten with the whole state exactly when it changed |
| PaperBot.Portfolio.CheckCandidate | paper_bot.py:94-121 | the new state is one entry step on the old (running) state; the file is rewritten with the whole state exactly when it changed |
| PaperBot.Portfolio.EntryPhase | paper_bot.py:93-124 | the new state is the entry fold over the watchlist in order; the file is rewritten with the whole state exactly when it changed |
| PaperBot.Portfolio.Tick | paper_bot.py:61-124 | the new state is the exit fold followed by the entry fold over the configured watchlist |
| PaperBotProperties.ExitThresholds | paper_bot.py:76-91 | target fires iff price ≥ 110% of cost; stop loss iff 0 ≠ price ≤ 95%; neither iff price is 0 or strictly between; target is tested first |
| PaperBotProperties.ExitStepAccounting | paper_bot.py:68-91 | a failed or zero price changes nothing; a sale adds exactly price × quantity and deletes only that position, moving balance + cost basis by the realised profit; no signal changes nothing |
| PaperBotProperties.ExitsHoldings | paper_bot.py:65-91 | after the exit phase the holdings are exactly the old ones minus the snapshot symbols with an exit signal, each judged on its starting position |
| PaperBotProperties.ExitsBalance | paper_bot.py:81-91 | after the exit phase the balance is the old balance plus the sum of price × quantity over the sold symbols |
| PaperBotProperties.ExitsKeepSound | paper_bot.py:84-90 | the exit phase keeps every stored position at positive quantity and price |
| PaperBotProperties.ProceedsNonNegative | paper_bot.py:83-89 | with no negative fetched price, sales never lower the balance |
| PaperBotProperties.DipMeans | paper_bot.py:48-50 | for a positive previous close, change < −2% iff last < 98% of the previous close |
| PaperBotProperties.EntryBuyAmounts | paper_bot.py:110-114 | a buy has a positive price, quantity = whole part of 10000 / price and > 0, and cost ≤ 10000 ≤ balance |
| PaperBotProperties.EntryStepBuy | paper_bot.py:114-121 | a buy lowers the balance by exactly the cost, never below 0, records the price and quantity, and conserves balance + cost basis |
| PaperBotProperties.EntryBuysExactly | paper_bot.py:96-124 | for a positive previous close: bought iff not held, 0 < last ≤ 10000, last < 98% of close and balance ≥ 10000; a failed fetch or a zero previous close never buys |
| PaperBotProperties.EntryStepSkipsHeld | paper_bot.py:96-97 | a held symbol is skipped and nothing changes |
| PaperBotProperties.EntryStepOutcome | paper_bot.py:96-121 | one entry step never raises the balance or makes it negative, keeps old positions, opens only the examined symbol, conserves balance + cost basis and keeps positions sound |
| PaperBotProperties.EntriesBalance | paper_bot.py:94-124 | the entry phase never raises the balance or makes it negative, and conserves balance + cost basis |
| PaperBotProperties.EntriesHoldings | paper_bot.py:94-121 | the entry phase keeps every old position unchanged, opens positions only for watchlist symbols and keeps positions sound |
| PaperBotProperties.BoughtOnceInAPass | paper_bot.py:94-97 | a symbol bought earlier in the pass is held when it comes round again, so it is bought once |
| PaperBotProperties.SoundIsReady | paper_bot.py:65-76 | a sound portfolio can run the exit phase over a snapshot on any prices |
| PaperBotProperties.TickKeepsInvariant | paper_bot.py:61-124 | a tick keeps a sound portfolio sound and, with no negative prices, a non-negative balance non-negative |
| PaperBotProperties.TargetScenario | paper_bot.py:81-85 | cost 100 × 10 at price 112: balance 100000 becomes 101120, no holdings |
| PaperBotProperties.StopLossScenario | paper_bot.py:87-91 | the same position at 94: balance becomes 100940 |
| PaperBotProperties.DipScenario | paper_bot.py:106-118 | previous close 50, last 48.5: 206 shares bought at 48.5 |
| PaperBotProperties.RunningBalanceScenario | paper_bot.py:110-124 | balance 20000 and three dips at 9000: A and B bought, C finds insufficient funds |
| LiveBot.CostDivisionFails | trading_bot.py:80-81 | the line-81 denominator is zero for a positive quantity; its effect on the phase is `FaultAbandonsExits` |
| LiveBot.PnlPct | trading_bot.py:85-90 | P&L in percent of a positive average price, else 0; stated as prices in `ExitOrderRule` |
| LiveBot.ExitOrder | trading_bot.py:94-99 | a full-quantity SELL on target, else on stop loss; characterised in `ExitOrderRule` |
| LiveBot.ExitOrders | trading_bot.py:76-102 | the exit phase's orders up to the first fault; characterised in `ExitOrdersMembership` and `ExitOrdersShape` |
| LiveBot.QuoteKey | trading_bot.py:120 | the exchange-prefixed quote key, `"NSE:TCS"` for `TCS` (`BuysHeldSymbol`) |
| LiveBot.PctChange | trading_bot.py:131 | change in percent of the previous close; stated as a 98% price bound in `EntryOrderRule` |
| LiveBot.EntryOrder | trading_bot.py:135-140 | a 1-share BUY on a dip of more than 2%; characterised in `EntryOrderRule` |
| LiveBot.EntryOrders | trading_bot.py:117-143 | the entry phase's orders up to the first zero close; characterised in `EntryOrdersMembership` and `EntryOrdersShape` |
| LiveBot.HoldingsOrders | trading_bot.py:76-102 | no exit orders when the holdings fetch raised |
| LiveBot.QuoteOrders | trading_bot.py:117-143 | no entry orders when the quote fetch raised |
| LiveBot.ScanOrders | trading_bot.py:72-143 | exit orders followed by entry orders, independent of each other (`BuysHeldSymbol`, `DryRunScan`, `LiveScan`) |
| LiveBot.FirstFault | trading_bot.py:78-81 | the index of the first holding whose line-81 division raises, or the length when none does |
| LiveBot.FirstBadQuote | trading_bot.py:119-131 | the index of the first quoted watchlist symbol with a zero close, or the length when none has |
| LiveBot.Forwarded | trading_bot.py:32-34 | a dry run forwards nothing; otherwise every order |
| LiveBot.Trader.constructor | config.py:18-28 | an empty desk in the given mode for the configured watchlist |
| LiveBot.Trader.PlaceOrder | trading_bot.py:28-49 | the order is recorded, and it reaches the broker exactly when not in a dry run |
| LiveBot.Trader.CheckHolding | trading_bot.py:85-99 | appends exactly the exit order of the holding |
| LiveBot.Trader.CheckExits | trading_bot.py:76-102 | appends exactly the exit orders up to the first failing division; nothing when the holdings fetch raised |
| LiveBot.Trader.CheckEntries | trading_bot.py:117-143 | appends exactly the entry orders up to the first zero close; nothing when the quote fetch raised |
| LiveBot.Trader.Scan | trading_bot.py:72-143 | appends the exit orders then the entry orders over the configured watchlist |
| LiveBotProperties.ExitOrderRule | trading_bot.py:85-99 | a holding is sold, with its full quantity, iff its average price is positive and its last price is ≥ 110% or ≤ 95% of it |
| LiveBotProperties.ExitOrdersMembership | trading_bot.py:76-102 | an order is placed in the exit phase iff it is the exit order of a holding before the first fault |
| LiveBotProperties.ExitOrdersShape | trading_bot.py:94-99 | at most one order per holding examined, all SELLs |
| LiveBotProperties.FaultAbandonsExits | trading_bot.py:81-102 | a holding with positive quantity and zero average price cuts off all later holdings |
| LiveBotProperties.EntryOrderRule | trading_bot.py:131-140 | for a positive close, a BUY of 1 share iff last < 98% of close |
| LiveBotProperties.EntryOrdersMembership | trading_bot.py:119-143 | an order is placed in the entry phase iff it is the entry order of a quoted symbol before the first zero close |
| LiveBotProperties.EntryOrdersShape | trading_bot.py:135-140 | at most one order per symbol examined, each a 1-share BUY of a watchlist symbol |
| LiveBotProperties.ZeroCloseAbandonsEntries | trading_bot.py:131-143 | a quoted symbol with a zero close cuts off all later symbols |
| LiveBotProperties.FaultScenario | trading_bot.py:81-102 | a holding of 5 shares at average price 0 first: no orders, though the later holding alone is sold |
| LiveBotProperties.BuysHeldSymbol | trading_bot.py:119-140 | a held symbol quoted 3% down is bought again |
| LiveBotProperties.RepeatsOrderTwice | trading_bot.py:81-140 | a holdings list naming a position twice gets two SELLs, and a watchlist naming a symbol twice gets two BUYs |
| LiveBotProperties.DistinctWatchlistBuysOnce | trading_bot.py:119-140 | when the watchlist lists each symbol once, no two entry orders name the same symbol |
| LiveBotProperties.ConfiguredWatchlistDistinct | config.py:18-22 | the configured watchlist lists each symbol once |
| LiveBotProperties.DryRunScan | trading_bot.py:32-34 | a dry-run scan decides the scan's orders and sends none |
| LiveBotProperties.LiveScan | trading_bot.py:36-49 | a live scan sends every decided order, in order |
| Utils.GetInstrumentLookup | utils.py:4-14 | every trading symbol is a key, there are no other keys, and a repeated symbol maps to the token of its last row |
| Utils.RsiInput | utils.py:16-22 | no value iff fewer than `period` prices; otherwise all the prices go on |
| Utils.IsMarketOpen | utils.py:35-41 | always open |

## Left out
- Broker session: the login flow, reading the token and `sys.exit`, the profile check, the real order call and the instrument download are remote I/O. The holdings list, quote map and instrument list are inputs, and the order call is the `sent` record.
- Market data and files: the yfinance price and day-change fetches and the JSON read and write are I/O. Fetch results are inputs, and the file is the ghost `disk` record.
- The endless scan loops, the sleeps and all logging are left out. One tick or one scan is modelled.
- The RSI computation after its length guard uses pandas rolling means over floats and is left out. The guard is `Utils.RsiInput`.
- The `watchlist_tokens` loop of the live bot is left out: its result is never used.
- Floating point: prices are exact reals, so float rounding of P&L, change and cost is not modelled.
- Timestamps: `datetime.now()` at each buy is one opaque `now` per tick.
- Dict iteration order is an input (`keys`), not insertion order.
- Malformed data is not modelled: a JSON file or broker record with missing fields raises `KeyError` and is outside the model.
- PaperBot.Portfolio.ExitPhase: requires distinct snapshot keys that are all held, with a nonzero average price wherever the price is usable. Otherwise the source raises an uncaught `KeyError` or `ZeroDivisionError` and the program stops; that crash is not modelled. The seed portfolio and every tick of a sound portfolio satisfy this (`SoundIsReady`, `TickKeepsInvariant`).
- The live bot's line-81 division also produces a first P&L value that is always overwritten. Only its failure is modelled.
- Concurrency: there is none in the source.
