# Basket-arbitrage bot: a verified model

This project models the trading core of `mango_on_a_fork_bot.py`, a bot for the Optibook
exchange that arbitrages two baskets against their constituents: the green-energy ETF against
the solar and wind stocks, and the fossil-fuel ETF against the gas and oil stocks. One
evaluation of a group (`basketProfiter`) runs four steps:

1. It cancels every order on the group's instruments (`deleteOld`).
2. It reads one book snapshot per instrument.
3. It checks two independent discrepancy branches on the top of the books.
4. For each branch that fires, it sizes a volume against the ±500 position limit and places
   three immediate-or-cancel (IOC) legs (`trade_with_market`). The legs are the basket at
   twice the volume and each constituent at the volume. A rejected leg triggers a fixed set of
   cancels.

The model has six modules:

- `Market`: the shared vocabulary. Instruments, sides, orders, the requests sent to the
  gateway, book snapshots, the two groups and the ±500 limit.
- `Sizing`: `find_vol`, `max_total_orders` and the chained caps of a branch, as functions,
  with the lemmas that bound the traded volume.
- `Detection`: the two branch conditions as functions on book snapshots.
- `Execution`: the specification of one attempt. It covers the three legs, the compensation
  table, and the exact sequence of requests for every pattern of gateway answers.
- `ExchangeClient`: the exchange as the bot sees it through its client. This is a class whose
  state is the following:
  - a position ledger;
  - the book snapshots;
  - the number of inserts sent so far;
  - the record of every request sent.

  The gateway's answer to the n-th insert is a fixed function given at construction. An
  accepted IOC order moves the ledger by the lots it fills, at most its volume.
- `Bot`: `deleteOld`, `trade_with_market`, the sizing loop, one branch and `basketProfiter`.
  These are module-level methods that take the client `e: Exchange` and modify it, as the
  Python functions take `e`. Each method is proved against a function on values:
  - `DeleteOld` against `Market.Deletes`;
  - `TradeWithMarket` against `Execution.AttemptTrace` and `ExchangeClient.ApplyFills`;
  - `SizeVolume` against `Sizing.FinalVolume`;
  - `RunBranch` against `Bot.Branch`;
  - `BasketProfiter` against `Bot.Profiter`.

  `Branch` and `Profiter` map a `ClientState` to the next one. A `ClientState` holds the
  requests sent, the ledger and the insert count. The lemmas about the limit and about the
  requests are proved on these functions.

Prices and volumes are whole numbers (ticks and lots). Python's `floor(x / 2)` and
`floor(0.5 * x)` on integers are floor division, and Dafny's `/ 2` computes exactly that.

The first branch (lines 76-101) fires on `askA + askB > 2 * basketBid`. It sends the basket
leg on `SIDE_BID` and the constituents on `SIDE_ASK`, so it buys the basket; the model calls it
`BuyBasketSignal`. `SellBasketSignal` is the mirror at lines 103-129: it fires on
`bidA + bidB < 2 * basketAsk` and sells the basket.

The bot sends its constituent orders on `stock_a_book.instrument_id` and
`stock_b_book.instrument_id`. These are the ids of the books read for `stocks[0]` and
`stocks[1]`, so the model uses the group's ids directly.

## Model

| member | source | states |
|---|---|---|
| Market.Members | mango_on_a_fork_bot.py:62 | The instruments cleaned up are exactly the group's basket and constituents, with the basket last. For a well-formed two-stock group, each instrument appears once. |
| Market.GroupsWellFormed | mango_on_a_fork_bot.py:17-23 | Both groups the bot trades, the green-energy and the fossil-fuel basket, have exactly two constituents and three distinct instruments. They are evaluated at lines 55 and 58. |
| Sizing.FindVol | mango_on_a_fork_bot.py:172-176 | The raw volume is the smaller of the cheaper constituent price and floor(basket price / 2). It is non-negative when both prices are. |
| Sizing.MaxTotalOrders | mango_on_a_fork_bot.py:178-184 | Three cases. (1) If trading `volume` keeps the position within ±500, the cap returns `volume` unchanged. (2) From a position within the limit, with a non-negative volume and a unit direction, the result lies in [0, volume] and trading it stays within the limit. (3) From a position already beyond the limit, when the trade is not admissible, the result is negative (it is not clamped). |
| Sizing.MaxTotalOrdersExample | mango_on_a_fork_bot.py:178-184 | Position 480 buying 50 is capped to 20. Selling 50 from the same position is not capped. Position 520 selling 10 gives -20. |
| Sizing.AdmissibleBelow | mango_on_a_fork_bot.py:181 | From a position within the limit, trading fewer lots in the same direction than an admissible volume is admissible. |
| Sizing.ChainCaps | mango_on_a_fork_bot.py:84-85 | Over bounded positions, with a non-negative start and a unit direction, the running volume after the caps are chained lies between 0 and the start. Trading it is admissible on every instrument of the chain, the earlier ones included. |
| Sizing.FinalVolume | mango_on_a_fork_bot.py:84-87 | From positions within the limit, a non-negative raw volume and a unit direction, the volume traded is non-negative. It is at most what the constituent caps left, which is at most the raw volume: the basket cap and the halving only lower it. |
| Sizing.FinalVolumeWithinLimit | mango_on_a_fork_bot.py:84-87 | From positions within the limit and a non-negative raw volume, the final volume lies between 0 and the raw volume. Trading it on every constituent, and twice it on the basket in the opposite direction, keeps each position within ±500. |
| Sizing.ChainCapsUnbound | mango_on_a_fork_bot.py:84-85 | When no constituent cap binds, the chained caps return the volume they were given. |
| Sizing.NoBindingCapKeepsRaw | mango_on_a_fork_bot.py:82-87 | When no cap binds, the final volume equals the raw `find_vol` result. |
| Sizing.NegativeRawCanBreachLimit | mango_on_a_fork_bot.py:82-87 | The limit result needs a non-negative raw volume. From raw -300, an unbinding cap on A, a position of 500 on B and room on the basket, the final volume is 250, which would push B to 750. |
| Detection.BuyBasketSignal | mango_on_a_fork_bot.py:76-81 | A fired branch 1 reports the best basket bid and the best ask of each constituent, and those quotes satisfy askA + askB > 2 × basket bid. |
| Detection.SellBasketSignal | mango_on_a_fork_bot.py:103-109 | A fired branch 2 reports the best basket ask and the best bid of each constituent, and those quotes satisfy bidA + bidB < 2 × basket ask. |
| Detection.RawVolume | mango_on_a_fork_bot.py:82 | The raw volume of a signal is at most either constituent price and at most half the basket price. It equals one of them (half rounded down), so it is the smallest of the three. The second branch computes it the same way at line 110. |
| Detection.BuyBasketFiresIff | mango_on_a_fork_bot.py:76-81 | Branch 1 fires if and only if a basket bid and both constituent asks are quoted and askA + askB > 2 × basket bid. When it fires it reports exactly those three quotes. |
| Detection.SellBasketFiresIff | mango_on_a_fork_bot.py:103-109 | Branch 2 fires if and only if a basket ask and both constituent bids are quoted and bidA + bidB < 2 × basket ask. When it fires it reports exactly those three quotes. |
| Detection.SignalsReadOnlyTopOfBook | mango_on_a_fork_bot.py:68-109 | Books that agree on the best quote of the sides a branch reads give that branch the same result, whatever lies deeper or on the other side. |
| Detection.BuyBasketExample | mango_on_a_fork_bot.py:76-82 | Basket bid 50 against asks 55 and 56 fires branch 1 with raw volume 25. Basket bid 100 against the same asks does not fire it. |
| Execution.Legs | mango_on_a_fork_bot.py:135-152 | There are three legs: basket, then stock A, then stock B, each at its own price from the plan. The basket volume is exactly twice each stock volume, which equals `vol`. Both stock legs share the stock side. Every leg is IOC. The legs are on three different instruments when the plan's instruments differ. |
| Execution.Compensation | mango_on_a_fork_bot.py:154-164 | The row for rejected leg k (0 basket, 1 stock A, 2 stock B) has k + 1 cancels. It always cancels the basket. Every instrument it cancels is one of the first k + 1 legs, the ones submitted. |
| Execution.AttemptTrace | mango_on_a_fork_bot.py:135-164 | An attempt first inserts the submitted legs in order. Every request after them is a cancel. There is a cancel exactly when a leg was rejected. |
| Execution.AttemptOutcomes | mango_on_a_fork_bot.py:135-164 | The request sequence for each of the four answer patterns. Basket rejected: insert basket, cancel basket. Stock A rejected: insert basket and A, cancel basket then A. Stock B rejected: all three inserts, then cancel A, basket, B. All accepted: the three inserts and no cancel. |
| Execution.BasketLegFirst | mango_on_a_fork_bot.py:135-140 | The first request of every attempt inserts the basket leg. A rejected basket leg ends the attempt with a single cancel on the basket and no constituent order. |
| Execution.LegSubmittedIffEarlierAccepted | mango_on_a_fork_bot.py:140-152 | Leg j is inserted if and only if every earlier leg was accepted. |
| Execution.RejectionEndsWithCancel | mango_on_a_fork_bot.py:154-164 | An attempt ends with a cancel if and only if one of its legs was rejected. |
| Execution.AttemptStaysOnPlan | mango_on_a_fork_bot.py:135-164 | Every request of an attempt concerns the basket or one of the two constituents. |
| Execution.CompensationRows | mango_on_a_fork_bot.py:154-164 | The cancels of each row of the compensation table are, as a multiset, exactly the instruments inserted up to the rejected leg. |
| Execution.SubmittedOnce | mango_on_a_fork_bot.py:135-152 | On distinct instruments, the inserted legs touch each instrument at most once. |
| Execution.CompensationCancelsEachSubmittedOnce | mango_on_a_fork_bot.py:154-164 | After a rejection, the instruments cancelled equal the instruments inserted, each exactly once. After three acceptances nothing is cancelled. |
| ExchangeClient.Fill | mango_on_a_fork_bot.py:135-139 | A rejected order fills nothing. An accepted IOC order fills at most its volume. |
| ExchangeClient.Applied | mango_on_a_fork_bot.py:179-180 | Answering one order keeps the ledger's instruments. It moves only the ordered instrument, by the lots filled in the order's direction. |
| ExchangeClient.ApplyFills | mango_on_a_fork_bot.py:179-180 | Answering a sequence of orders keeps the ledger's instruments. |
| ExchangeClient.FillsLeaveOthers | mango_on_a_fork_bot.py:135-152 | Orders move no position other than those of the instruments ordered. |
| ExchangeClient.FillWithinLimit | mango_on_a_fork_bot.py:181-184 | Any partial fill of an order that would be admissible in full keeps every position within ±500. |
| ExchangeClient.FillsKeepLimit | mango_on_a_fork_bot.py:135-152 | Orders on distinct instruments, each admissible in full, keep every position within ±500 however much each fills. |
| ExchangeClient.Exchange.constructor | mango_on_a_fork_bot.py:198-199 | A fresh client holds the given ledger, books and gateway, and has sent nothing. |
| ExchangeClient.Exchange.InsertOrder | mango_on_a_fork_bot.py:135-139 | An insert succeeds exactly when the gateway accepts it. The ledger moves by the fill, the request is recorded, one more insert is counted, and the books are unchanged. |
| ExchangeClient.Exchange.DeleteOrders | mango_on_a_fork_bot.py:164 | A cancel is recorded and changes no position, book or insert count. |
| Bot.QuotesGiveNonNegativeSignals | mango_on_a_fork_bot.py:76-106 | Non-negative quotes make any fired signal non-negative. |
| Bot.BranchPlan | mango_on_a_fork_bot.py:90-99 | The plan trades the group's basket and its first two constituents. The basket is on the branch's side and the constituents on the opposite side. The three instruments differ when the group is well formed. The second branch's call is at lines 118-127. |
| Bot.DeleteOld | mango_on_a_fork_bot.py:187-189 | It sends exactly one cancel per instrument, in the order given, and changes nothing else. |
| Bot.FullFillsMovePositions | mango_on_a_fork_bot.py:135-152 | When every leg fills completely, the basket moves by its sign × 2·vol and each constituent by the opposite sign × vol. |
| Bot.TradeWithMarket | mango_on_a_fork_bot.py:133-164 | The requests sent are exactly the attempt given the gateway's answers. The ledger is moved by the fills of the submitted legs only. The insert count grows by the number of submitted legs. The books are unchanged. |
| Bot.SizeVolume | mango_on_a_fork_bot.py:84-87 | The loop over the constituents, followed by the basket cap and the halving, computes the final volume of the branch. |
| Bot.BranchKeepsLimit | mango_on_a_fork_bot.py:84-99 | A fired branch sized from positions within the limit and non-negative quotes keeps every position within ±500 after any number of its legs, however much each fills. |
| Bot.Branch | mango_on_a_fork_bot.py:76-99 | The specification of one branch that the method is proved against. Its contract: whatever the gateway answers, the ledger keeps its instruments. Its limit and request properties are the two lemmas below. |
| Bot.BranchOnGroup | mango_on_a_fork_bot.py:76-99 | A branch keeps the requests sent before it. Every request it adds concerns the group's basket or one of its two constituents. |
| Bot.BranchEffectKeepsLimit | mango_on_a_fork_bot.py:82-99 | From positions within ±500 and a non-negative signal, a branch keeps every position within ±500, whatever the gateway answers. |
| Bot.FiredBranch | mango_on_a_fork_bot.py:82-99 | A fired branch trades exactly the plan passed to `trade_with_market`: the basket on the branch side and the constituents on the other side, at the triggering quotes, with the sized volume. When that volume is not positive it sends nothing. |
| Bot.RunBranch | mango_on_a_fork_bot.py:82-99 | The new requests, ledger and insert count are exactly `Branch` applied to the old ones with the fired signal. Earlier requests are kept. New requests concern only the group. Positions within the limit stay within it when the signal is non-negative. The books are unchanged. |
| Bot.Profiter | mango_on_a_fork_bot.py:60-129 | The specification of one group evaluation that the method is proved against: the cleanup cancels, then branch 1 on `SIDE_BID`, then branch 2 on `SIDE_ASK` from the state branch 1 left. Its contract: the ledger keeps its instruments. Its properties are the three lemmas below. |
| Bot.ProfiterCleansFirst | mango_on_a_fork_bot.py:60-129 | The record starts with one cancel per instrument of the group (stocks, then basket). Every later request concerns the group. |
| Bot.ProfiterKeepsLimit | mango_on_a_fork_bot.py:60-129 | From positions within ±500 and non-negative quotes on the group's three books, an evaluation keeps every position within ±500. |
| Bot.ProfiterQuietWithoutSignal | mango_on_a_fork_bot.py:74-109 | When neither branch fires, an evaluation only sends the cleanup cancels; the ledger and insert count are unchanged. |
| Bot.BasketProfiter | mango_on_a_fork_bot.py:60-129 | The new requests, ledger and insert count are exactly `Profiter` applied to the old ones and the books: the cleanup cancels, then branch 1 on `SIDE_BID`, then branch 2 on `SIDE_ASK` from the state branch 1 left. The record starts with one cancel per instrument before any trade, and every later request concerns the group. From positions within ±500 and non-negative quotes, every position stays within ±500. The books are unchanged. |

## Left out

- The endless loop in `main`, the connection, and the `time.sleep` pacing (lines 101, 129 and
  197-205) are not modelled. `trade_cycle` and `trade_cycle_fossil` (lines 54-58) only choose
  a group; the two groups are the constants `Market.GreenEnergy` and `Market.FossilFuel`.
- `print_report` and `print_order_response` (lines 28-48, 100, 128 and 166-168) only log and
  poll trade counts. They are not modelled. Lines 167-168 log the responses `s` and `t`, which
  are unbound when the basket or stock A leg was rejected. The call therefore raises after the
  compensation cancels have been sent. The model ends `trade_with_market` at line 164 and runs
  the second branch regardless.
- Prices are floating point in the client; the model uses whole ticks. The constant `MARGIN`
  (line 12) is never used and is not modelled.
- The client's internals (the transport, book retrieval and `get_positions`) are replaced by
  the state of `ExchangeClient.Exchange`. The gateway's answers are a function fixed in advance,
  so rejection reasons and order ids are not modelled. Other traders' fills between the bot's
  calls are not modelled either: a branch sizes against one ledger snapshot.
- Bot.BasketProfiter: a missing position (the `KeyError` of `positions[stock_id]`, line 180) is
  not modelled as an error path. The methods require the ledger to list every instrument of the
  group, as the exchange's position report does.
- Bot.BasketProfiter: a missing book snapshot is not modelled either; the method requires one
  for each of the three instruments.
- Bot.BasketProfiter: the ±500 guarantee is proved only for non-negative quotes.
  `Sizing.NegativeRawCanBreachLimit` shows that a negative raw volume can breach the limit.
- Bot.BranchKeepsLimit: states the limit under any partial fills of IOC legs. Resting orders
  are not modelled, so cancels never change a position.
- ExchangeClient.ApplyFills: an order on an instrument the ledger does not list leaves the
  ledger unchanged.
