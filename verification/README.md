# Verified model of the exchange node

This project models the core of a node that replicates a spot exchange with chained
HotStuff, and proves what holds of it over all inputs, all runs and all reachable states:

- the order books and the three sweeps that match against them (`src/state/spot_market.rs`),
- the clearing house that locks, settles and hands back funds (`src/state/spot_clearinghouse.rs`),
- the ledger that gates transactions by nonce and keeps a second copy of every open order
  (`src/state/state.rs`, `src/state/order.rs`),
- quorum certificates, the voting, locking and commit rules, the Merkle root and the message
  window (`src/hotstuff/`), and
- the priority mempool (`src/hotstuff/mempool.rs`).

`dafny verify dfyconfig.toml` checks everything.

## Files

| file | content |
|---|---|
| LotMath | floor conversions between base and quote lots, and their rounding laws |
| Orders | orders, levels, the price-time list of a side, fills, greedy matching |
| BookEdits | adding and cancelling: binary searches, lazy marks, pruning |
| Sweeps, Matching, MarketBuys | one level, one side, and the three sweeps against their references |
| BookFailures | books on which a market buy misses an ask and a cancel loses an order |
| SpotMarket | the two-sided market object; never crossed |
| Balances, Settlement, ClearingHouse | balance deltas, supply, pledges; what an order or a cancel does |
| Solvency, HouseRuns | solvency and conservation for single steps and whole runs |
| SpotClearingHouse | the clearing house object |
| HouseFailures | runs of that object that end insolvent or change a supply |
| SelfTrades | the exact law of supply over runs, self trades included |
| Effects | when orders are refused or execute, and every account's balances after each step |
| Transfers | what a transfer does to balances and supply |
| AccountOrders, Ledger | the account copies of open orders; transactions |
| LedgerMirror, LedgerSteps, LedgerRuns | the mirror invariant, self crosses, nonces |
| Records, Orphans | each order on record exactly once; what records say; open copies without a live order |
| TxAnswers, TxCopies | which transactions are answered; every account's open copies and completed orders after each |
| LedgerSolvency, LedgerObject | all three layers over whole runs; the ledger object |
| TxBalances | every account's balances after each transaction and over runs |
| LedgerFailures | runs of that object that leave a stale record or an open copy without an order |
| Merkle, Quorums, HotStuff | Merkle root; certificates; the replica |
| Agreement, HonestRun | three-chain agreement; runs that meet its hypotheses |
| Scripts, LockFalls | proposals on several branches; when a vote lowers a lock, and a run in which one does |
| Necessity | runs with conflicting commits when locks may fall or views may repeat |
| MessageWindow, Mempool | the sliding window; the mempool |

Objects that the program updates in place are classes whose methods are proved against
functions and relations on values (`State()` gives the value). The theorems are about those
values. A vector that the program mutates is a `seq` field or variable that is reassigned.
Amounts are unbounded; where the program truncates to 64 bits, `LotMath.BaseToQuoteU64`
says so and `LotMath.FillsFitWhenLockFits` says when it does not matter. Products and
quotients in conversions are the recursive functions `Scale` and `Floor`, proved equal to
`*` and `/` by `LotMath.ConversionsAreFloors`. Some contracts write `P(x) == true` for
`P(x)`: the meaning is the same, and a caller then checks one fact instead of each conjunct.

## Hypotheses

The program leaves some things to its callers. They are named in the contracts, and asked only
of orders, cancels and transfers that get past the program's own nonce, self-cross, funds and
lookup checks (`Ledger.Reaches`, `Ledger.Sends`, `Solvency.Funded`, `HouseRuns.CanPay`): what
the program turns away is never constrained, and neither are the results about nonces and
records, which hold of all runs.

- (A) order ids increase and sizes are positive (`NewOrder`, `FreshId`). The ledger
  establishes the ids: `LedgerSteps.IssuedIsNew`.
- (B) no market order meets an order of its sender (`NoSelfTrade`), for conservation and
  solvency only. What self trades do to supply is exact, for one settlement and over whole runs:
  `Settlement.SettleConserves`, `SelfTrades.SettleChange`, `SelfTrades.RunSupply`,
  `LedgerSolvency.LedgerSupply`, with a run in `HouseFailures.SelfFillRun`. The mirror invariant,
  the order of the books and the self-cross check do not need (B).
- (C) a cancelled order never traded with its owner, or with exactly as much as the others at its
  price have left (`CancelSafe`). What goes wrong otherwise is exact: `BookEdits.CancelOutcomes`,
  `BookEdits.WithdrawnOkIff`, with a book in `BookFailures.CancelLosesOrder`. The mirror itself
  survives every cancel that does not underflow: `LedgerRuns.CancelKeepsMirror`.
- (D) market buys are funded and meet only priced asks (`BuyDefined`), a cancel carries the
  current copy of its order (`CurrentCopy`, `FullCopy`), and the balance entry at the position
  that a transfer debits exists and holds the amount (`Debitable`). The ledger establishes the
  copy: `LedgerSteps.CancelCopyIsCurrent`.

Solvency needs nothing else. Over a whole run it holds if and only if at every limit order that
fills in part and at every refund the account's slack suffices (`HouseRuns.RunSolventIff`,
`LedgerSolvency.LedgerSolventIff`). Runs that break it are `HouseFailures.PartialRestRun` and
`HouseFailures.WrongRefundRun`, and `HouseFailures.RunsHaveInputs` gives inputs for all the runs.

The agreement theorem has named hypotheses on the run of the correct replicas
(`Agreement.Hypotheses`): few faults, votes in increasing views and in the view of the block,
locks that never fall, certificates with their own labels and unforged signatures, certified
blocks whose certificate is for their parent in a smaller view, and voters that hold the
ancestors. The program does not establish them itself: its checks on a proposal compare
neither the view with earlier votes (`HotStuff.VotesAgainIff`) nor a certificate's labels with
its signed message (`Quorums.LabelsNotChecked`), and it assigns locks without comparing views
(`LockFalls.LockFallsIff`, `LockFalls.LockCanFall`). `HonestRun.HonestRunMeetsHypotheses` shows
that they can be met together by runs that commit, for any 3f + 1 validators of which up to f
are silent (`HonestRun.CrewOfTwoThirds`). Those on locks and views are needed: without either,
correct replicas commit conflicting blocks in runs that meet all the others
(`Necessity.LocksMustGrow`, `Necessity.ViewsMustIncrease`).

Where a class method ends in the state that a step relation names, that state is in turn described
in plain terms, from what is known before the call: when a replica votes and what its vote changes
(`HotStuff.VotesIff`, `HotStuff.VoteEffect`), who ends up with which balances (`Effects.LimitBalances`,
`Effects.MarketBalances`, `Effects.CancelBalances`, `TxBalances.TxMoves`), which transactions are
answered (`TxAnswers.AnswerIff`), and what every account has on record (`TxCopies.TxFollows`).

## Results worth knowing

- A market buy is not quite the greedy pass: a cancelled entry behind the last live order of a
  level can end it early. `MarketBuys.BuyRefinesGreedy` says exactly when, and
  `BookFailures.BuyMissesAsk` shows it at the lot sizes of the program's own market.
- A limit order that executes in part leaves its remainder without a lock.
- Cancelling an order that traded with its owner underflows the level's volume, drops the whole
  level with other accounts' orders, or leaves the volume short: `BookEdits.CancelOutcomes`.
- A transfer adds its amount to the sum of total balances, because the sender's total is not
  reduced: `Transfers.TransferMints`, `Transfers.TransferStrands`.
- With 2, 3, 5, 6, ... validators the quorum formula does not give the overlap that agreement
  needs (`Quorums.OverlapIff`), and with 2, 3 or 6 two blocks of one view can both be certified
  (`Quorums.OneBlockIff`).
- The Merkle root commits to the list of transactions up to repetitions at its end:
  `Merkle.RootsAgreeIff`, `Merkle.CollisionIsExtension`.
- A record marked filled shows something remaining if and only if its order was filled whole on
  arrival: `Records.FilledRecordIff`, `Records.LegalRecordIff`, with a run in
  `LedgerFailures.StaleRecordRun`.
- An open copy has no live order if and only if its order was issued without a market or funds, or
  was dropped with the level of another order that was cancelled: `Orphans.OrphanIff`.
- In any state with a sound store a replica that voted for a block votes for every sound sibling
  of it, in the same view or not: `HotStuff.VotesAgainIff`, `HotStuff.SecondVote`.
- The mempool counters exceed their contents by the number of overwrites and of drained slots
  that served nothing, and never come back: `Mempool.GapsCount`, `Mempool.CountersDrift`.

## Model

| member | source | states |
|---|---|---|
| LotMath.ConversionsAreFloors | src/state/spot_clearinghouse.rs:27-50 | both conversions are the floor divisions of the program's integer products |
| LotMath.FillsFitWhenLockFits | src/state/spot_clearinghouse.rs:27-36 | if an order's lock fits 64 bits, so does every partial fill at an equal or lower price, and truncation changes nothing |
| LotMath.SplitFill | src/state/spot_clearinghouse.rs:27-36 | splitting a size never gains quote lots and loses at most one |
| LotMath.RoundTripWithinBudget | src/state/spot_clearinghouse.rs:27-50 | converting quote to base and back never exceeds the quote |
| Orders.GreedyFillsMin | src/state/spot_market.rs:244-290 | greedy matching fills the minimum of the size and the live volume |
| Orders.FlattenSorted | src/state/spot_market.rs:86-120 | the live orders of a well-formed side are in strict price-time order, all with something left |
| BookEdits.AddOrder | src/state/spot_market.rs:86-120 | the binary search inserts the order at its place of the price-time list, keeps levels sorted, ids ascending, volumes and cancel counters exact |
| BookEdits.EnqueueMembers | src/state/spot_market.rs:86-120 | queueing adds exactly the one order |
| BookEdits.EnqueueKeepsOrder | src/state/spot_market.rs:86-120 | a fresh order goes behind all orders of its price, and strict price-time order is kept |
| BookEdits.MarkCancelled | src/state/spot_market.rs:122-143 | the search by id finds and marks the order if and only if it is live |
| BookEdits.CancelOrder | src/state/spot_market.rs:145-187 | a cancel finds the order if and only if it is live, returns its unfilled size or 0, and marks, prunes and drops as the program does; if the order never traded with its owner, exactly it leaves the price-time list; a second cancel finds nothing |
| BookEdits.CancelOutcomes | src/state/spot_market.rs:145-187 | the volume underflows if and only if the order traded more with its owner than the others at its price have left; the level is dropped with all its orders if and only if exactly that much; otherwise only the order goes and the volume is short by that much |
| BookEdits.PruneIff | src/state/spot_market.rs:164-178 | a level that a cancel leaves is pruned of its cancelled entries if and only if they are more than half of its entries, so afterwards they never are; the other levels stand |
| BookEdits.WithdrawnOkIff | src/state/spot_market.rs:145-187 | a cancel leaves a well-formed book if and only if the order never traded with its owner or the whole level goes |
| BookFailures.CancelLosesOrder | src/state/spot_market.rs:164-187 | a well-formed level from which cancelling one order removes another account's order too |
| BookEdits.WithoutGone | src/state/spot_market.rs:145-187 | removal drops that order and keeps all others |
| Sweeps.SweepLevel | src/state/spot_market.rs:244-302 | the scan of a level books the greedy fills of its live entries, skips cancelled ones, and reports drained entries, residual, volume and counters |
| Sweeps.LeftoverFacts | src/state/spot_market.rs:244-302 | matching conserves volume and orders between fills and leftover |
| Sweeps.PopLevel | src/state/spot_market.rs:292-306 | dropping a consumed level continues the greedy pass on the rest of the side |
| Sweeps.StopInside | src/state/spot_market.rs:292-302 | stopping inside a level leaves the book of the greedy pass, well formed |
| Matching.ExecuteLimit | src/state/spot_market.rs:213-324 | a limit sweep takes exactly the greedy fills over the acceptable prefix of the price-time list, leaves exactly the rest, and stops with no acceptable level if size remains |
| Matching.AcceptablePrefixIsAll | src/state/spot_market.rs:234-239 | the acceptable prefix holds every acceptable order of the side |
| Matching.LimitFillsMin | src/state/spot_market.rs:234-306 | a limit order fills the minimum of its size and the live volume at acceptable prices |
| Matching.ExecuteMarketSell | src/state/spot_market.rs:465-579 | a market sell takes exactly the greedy fills of the bids, self trades marked |
| Matching.ExecuteMarketBuy | src/state/spot_market.rs:326-463 | a market buy takes exactly the fills of the level-by-level conversion of its budget, never spends more than it, self trades included, and no subtraction underflows |
| Matching.QuoteUpperBound | src/state/spot_market.rs:255-269 | fills at prices up to a limit cost at most their total size at the limit |
| Matching.QuoteLowerBound | src/state/spot_market.rs:255-269 | k fills at prices down to a limit earn at least their total size at the limit less k - 1 |
| MarketBuys.BuyRefinesGreedy | src/state/spot_market.rs:326-463 | the fills of a market buy are always a prefix of the greedy pass over live orders, and equal to it if and only if the sweep does not stall on a cancelled tail |
| BookFailures.BuyMissesAsk | src/state/spot_market.rs:420-449 | a well-formed book, at the lot sizes of the program's own market, on which a market buy stops short of the greedy pass |
| SpotMarkets.LimitKeepsOk | src/state/spot_market.rs:598-671 | limit orders keep both sides well formed and the market uncrossed, also when a remainder rests |
| SpotMarkets.MarketKeepsOk | src/state/spot_market.rs:581-596 | market orders do too |
| SpotMarkets.CancelKeepsOk | src/state/spot_market.rs:673-685 | a cancel keeps the market well formed and uncrossed if and only if it is safe for its level |
| SpotMarkets.SpotMarket.AddLimitOrder | src/state/spot_market.rs:598-671 | matches if and only if the order crosses the best price, with the greedy fills, and rests the remainder |
| SpotMarkets.SpotMarket.HandleMarketOrder | src/state/spot_market.rs:581-596 | sweeps the opposite side, within the order's size or budget, and leaves the own side alone |
| SpotMarkets.SpotMarket.Cancel | src/state/spot_market.rs:673-678 | ends where the cancel step puts the market, reports the unfilled size, and keeps the market in order if and only if the cancel is safe |
| Balances.ApplyEffect | src/state/spot_clearinghouse.rs:239-259 | a balance change affects exactly the account and asset it names, creating the entry if need be |
| Balances.SupplyApplyAll | src/state/spot_clearinghouse.rs:383-546 | the supply of an asset changes by the net of the deltas |
| Settlement.LotsSettled | src/state/spot_clearinghouse.rs:437-504 | makers are settled for the traded lots plus what completely matched orders had traded with their owners |
| Settlement.QuoteSettled | src/state/spot_clearinghouse.rs:437-504 | without self trades both sides of every fill round alike, dust included |
| Settlement.SettleConserves | src/state/spot_clearinghouse.rs:406-546 | a settlement conserves base supply if and only if no completely matched maker has self-filled lots, and then every asset |
| Settlement.SettleMints | src/state/spot_clearinghouse.rs:406-546 | a settlement adds to (sell) or takes off (buy) the base supply exactly what completely matched makers had traded with their owners |
| Settlement.FillFrees | src/state/spot_clearinghouse.rs:437-546 | a partial fill costs its maker no more than it takes off the order's pledge |
| Settlement.SettleFills | src/state/spot_clearinghouse.rs:437-546 | settling all makers pays out of their pledges without underflow and leaves the leftover book covered |
| ClearingHouse.SettledCover | src/state/spot_clearinghouse.rs:383-546 | lock, taker and makers together: no underflow, and everything left in the book stays covered |
| ClearingHouse.ClaimEnqueue | src/state/spot_clearinghouse.rs:322-380 | a resting order adds exactly its pledge to its account's claims |
| ClearingHouse.ClaimWithout | src/state/spot_clearinghouse.rs:276-308 | a removed order takes exactly its pledge off |
| Solvency.LimitBuyWithinLimit | src/state/spot_clearinghouse.rs:330-356 | a limit buy pays at most its filled size at its limit price, hence at most its lock |
| Solvency.LimitSellEarns | src/state/spot_clearinghouse.rs:406-429 | a limit sell with k makers earns at least its filled size at its limit price less k - 1 quote lots |
| Solvency.LimitKeepsSolvent | src/state/spot_clearinghouse.rs:318-572 | a limit order that is refused, rests untouched or fills completely keeps the house solvent and underflows nothing |
| Solvency.LimitSolventIff | src/state/spot_clearinghouse.rs:318-572 | any limit order underflows nothing, and keeps the house solvent if and only if it does not rest a remainder beyond the account's slack |
| Solvency.ExecutionUnlocks | src/state/spot_clearinghouse.rs:415-422 | an execution releases the whole lock: the taker's locked funds end where they began |
| Solvency.PartialRestSolvent | src/state/spot_clearinghouse.rs:415-422 | a partly executed limit order leaves the house solvent if and only if the account's slack covers the remainder |
| HouseRuns.BuyInBudget | src/state/spot_market.rs:338-461 | the quote spent by a market buy over all levels is within its budget |
| HouseRuns.MarketSolvent | src/state/spot_clearinghouse.rs:574-857 | a market order keeps the house solvent and underflows nothing |
| HouseRuns.CancelSolvent | src/state/spot_clearinghouse.rs:276-308 | a cancel with the lot sizes of its own market, of a live order or not, keeps the house solvent |
| HouseRuns.CancelSolventIff | src/state/spot_clearinghouse.rs:276-308 | a cancel at any lot sizes, of a live order or not, keeps the house solvent if and only if the account's slack bears the refund |
| HouseRuns.RefundSolventIff | src/state/spot_clearinghouse.rs:287-306 | with any lot sizes, a refund keeps the house solvent if and only if it exceeds the pledge by no more than the slack |
| HouseRuns.StepKeepsClean | src/state/spot_clearinghouse.rs:276-860 | every legal step keeps all books well formed, uncrossed and free of self trades |
| HouseRuns.StepConserves | src/state/spot_clearinghouse.rs:276-860 | every legal step conserves the supply of every asset |
| HouseRuns.StepSolventIff | src/state/spot_clearinghouse.rs:276-860 | every legal step underflows nothing, and keeps the house solvent if and only if the slack bears it |
| HouseRuns.RunConserves | src/state/spot_clearinghouse.rs:276-860 | so does every run |
| HouseRuns.RunSolventIff | src/state/spot_clearinghouse.rs:276-860 | all states of a run are solvent, each account's locked funds covering what its resting orders would hand back, if and only if the slack suffices at every order that fills in part and every refund |
| HouseRuns.RunSolvent | src/state/spot_clearinghouse.rs:276-860 | in particular if limit orders fill wholly or not at all on arrival and refunds use the order's own lot sizes |
| HouseRuns.RunNeverUnderflows | src/state/spot_clearinghouse.rs:276-860 | no subtraction of a step from a solvent state of a run underflows |
| SpotClearingHouses.SpotClearingHouse.PlaceLimit | src/state/spot_clearinghouse.rs:318-572 | balances and markets end where the limit order step puts them, with the other markets untouched; `Effects.LimitAnswer` says when it is refused or executes, `Effects.RestingBalances` and `Effects.LimitBalances` what every account then has |
| SpotClearingHouses.SpotClearingHouse.PlaceMarket | src/state/spot_clearinghouse.rs:574-857 | balances and markets end where the market order step puts them, with the other markets untouched; `Effects.MarketAnswer` and `Effects.MarketBalances` say when and what every account then has |
| SpotClearingHouses.SpotClearingHouse.CancelOrder | src/state/spot_clearinghouse.rs:276-308 | balances and markets end where the cancel step puts them: the order gone from its book (`BookEdits.CancelOutcomes`), its unfilled value available again (`Effects.CancelBalances`) |
| Effects.OwnIff | src/state/spot_market.rs:370-405 | a fill of a market order is a self trade if and only if the resting order is the sender's |
| Effects.LastTrade | src/state/spot_market.rs:581-671 | the last price after a match is that of the last fill with another account, and stands if there is none |
| Effects.CrossesIff | src/state/spot_market.rs:598-671 | a limit order meets the other side if and only if an ask level is at or below a buy's price, or a bid level at or above a sell's |
| Effects.LimitAnswer | src/state/spot_clearinghouse.rs:318-383 | a limit order is refused if and only if its market is missing or its sender's available balance is below its cost at its price; it executes if and only if it is not refused and meets a level |
| Effects.MarketAnswer | src/state/spot_clearinghouse.rs:574-857 | a market order is refused if and only if its market is missing or its sender does not have its size available; otherwise it executes |
| Effects.RestingBalances | src/state/spot_clearinghouse.rs:318-380 | a refused order changes no balance; one that rests takes its cost at its price off its sender's available balance in the asset it pays with, and nothing else |
| Effects.LimitBalances | src/state/spot_clearinghouse.rs:383-572 | an executed limit order: the taker gains what its fills bring in both balances and pays what they cost from both, each maker gains in both and pays from its total alone, all other accounts and assets stand |
| Effects.MarketBalances | src/state/spot_clearinghouse.rs:574-857 | the same of an executed market order: exactly its fills are paid, the rest of its lock is available again |
| Effects.CancelBalances | src/state/spot_clearinghouse.rs:276-308 | a cancel of a live order raises its owner's available balance, in the asset it pays with, by the cost of its unfilled size at the lot sizes it comes with; it changes nothing else, and nothing at all without a live order |
| Effects.RefundIsPledge | src/state/spot_clearinghouse.rs:287-306 | at the order's own lot sizes that is exactly its pledge |
| Effects.RoundTripBalances | src/state/spot_clearinghouse.rs:276-380 | an order that rests and is cancelled at once leaves every balance as it was |
| Effects.RoundTripBook | src/state/spot_clearinghouse.rs:276-380 | and both sides of its market |
| HouseFailures.PartialRestRun | src/state/spot_clearinghouse.rs:415-422 | from any opening balances two funded limit orders, the second larger than the first, make the house insolvent |
| HouseFailures.WrongRefundRun | src/state/spot_clearinghouse.rs:287-306 | so does a cancel at lot sizes that make the order worth more than its lock |
| HouseFailures.SelfFillRun | src/state/spot_clearinghouse.rs:437-504 | the owner of a bid sells part of it to itself, another account the rest, and the self-traded base lots have been added to the supply |
| HouseFailures.RunsHaveInputs | src/state/spot_clearinghouse.rs:27-50 | orders and balances for these runs at the lot sizes of the program's own market |
| SelfTrades.SettleChange | src/state/spot_clearinghouse.rs:406-546 | a settlement changes each supply exactly by what completed self-filled makers are settled for beyond their fills: base one way, quote the other |
| SelfTrades.StepSupply | src/state/spot_clearinghouse.rs:276-860 | every step, self trades included, keeps the books in order and changes each supply by an amount known before it |
| SelfTrades.RunSupply | src/state/spot_clearinghouse.rs:276-860 | over every run supply at the end is supply at the start plus the sum of those amounts |
| Transfers.TransferCovers | src/state/state.rs:271-311 | a transfer keeps every resting order of every account covered |
| Transfers.TransferMints | src/state/state.rs:271-311 | and adds its amount to the supply of the asset |
| Transfers.TransferStrands | src/state/state.rs:282-309 | the sender's total stays, so the amount is locked with it for good |
| Transfers.TransferBalances | src/state/state.rs:271-311 | the debit takes the amount off the available balance of whatever asset has its entry at that position, the credit adds it to both balances of the receiver; no other balance of any account changes |
| AccountOrders.OneIdOneOrder | src/state/state.rs:342-351 | two mirrored orders with one id agree in owner, price, market and side |
| AccountOrders.FillAllKept | src/state/state.rs:480-498 | completing the reported makers removes only their own copies |
| AccountOrders.ResidualKept | src/state/state.rs:500-522 | booking a residual finds the maker's copy and leaves one equal to the book's order |
| LedgerMirror.MakersMirror | src/state/state.rs:480-522 | after a match every order left in the book has its copy, the partly matched one with its new counters, and no lookup fails |
| LedgerMirror.LimitChangeKept | src/state/state.rs:404-435 | the sender's copy is found and agrees with the remainder that rests |
| LedgerSteps.IssuedIsNew | src/state/order.rs:34-57 | an issued limit order is new to the book it goes to |
| LedgerSteps.CancelCopyIsCurrent | src/state/state.rs:556-591 | a cancel hands over a copy that agrees with the live order in all but status |
| LedgerRuns.TxKeepsOk | src/state/state.rs:313-635 | every transaction, self trades included, keeps the mirror invariant |
| LedgerRuns.CancelKeepsMirror | src/state/state.rs:535-605 | every cancel that does not underflow keeps the mirror; it keeps the books in order if and only if it is safe |
| LedgerRuns.LiveOrderHasOneCopy | src/state/state.rs:349-351 | each live order has exactly one copy among all open orders, with equal id, price, side, size, filled and self-filled counters |
| LedgerRuns.LookupsSucceed | src/state/state.rs:404-522 | the lookups that insist on an open order find it |
| LedgerRuns.NoSelfMatch | src/state/state.rs:204-217 | a limit order that passes the self-cross check is never filled against its own account |
| TxAnswers.SelfCrossIff | src/state/state.rs:204-217 | a limit order is turned away by the check if and only if its sender has an open sell at or below its price (a buy) or an open buy at or above it (a sell) |
| TxAnswers.AnswerIff | src/state/state.rs:313-635 | a transaction reports a result if and only if it carries the expected nonce and what it names is there (market, open order, amount) and, for a limit order, no such own order; the result is the next nonce, and ids advance by one for every order past the nonce and self-cross checks |
| TxAnswers.Unanswered | src/state/state.rs:313-635 | without a result no book, balance or completed order changes, and the only new open order there can be is one for a missing market |
| TxAnswers.MarketRecordHolds | src/state/state.rs:437-470 | an executed market order is on record under its new id with what its fills traded with others and, apart, with its sender (quote lots for a buy, base lots for a sell), marked filled if and only if the former reaches its size; the two stay within the size, and the former is what the sender's balances move by |
| TxAnswers.MarketRecordIff | src/state/state.rs:437-470 | in every state of every legal run from blank records the market records of an account are exactly those of its executed market orders, each with those contents |
| TxCopies.TxFollows | src/state/state.rs:313-605 | after every answered transaction each account's copy of each order is exactly as the fills say: gone if filled whole or cancelled, with the fill on its counters if filled in part, the sender's new order as asked for with what it matched, all others unchanged; and exactly the records of these orders have been added |
| TxCopies.RunCompletes | src/state/state.rs:637-662 | over every legal run the completed orders of an account are, in order, exactly the records its own and others' transactions add |
| LedgerRuns.TxNonce | src/state/state.rs:323-333 | a transaction executes only with the expected nonce, then advances it by one; nothing else changes any nonce |
| LedgerRuns.RunKeepsOk | src/state/state.rs:637-662 | every state of every run satisfies the mirror invariant |
| LedgerRuns.ExactlyOnceExecution | src/state/state.rs:637-662 | over any transactions, replayed and unfunded ones included, an account's executed ones report consecutive nonces, and it ends up expecting the next |
| LedgerRuns.NoReplay | src/state/state.rs:637-662 | no two executed transactions share sender and nonce |
| Records.RecordedOnce | src/state/state.rs:313-605 | in every state of every run each order placed so far is on record exactly once, open or completed, under its owner, and no other id is |
| Records.PlacedOnce | src/state/order.rs:34-57 | an id is placed once in a run, for one account |
| Records.FilledRecordIff | src/state/state.rs:404-498 | in every state of every run from blank records, a record marked filled has something remaining if and only if a step placed its order with a positive size and filled it whole on arrival; it is then the order as it came |
| Records.ArrivalIff | src/state/state.rs:377-435 | a legal limit order is filled whole on arrival if and only if it passes the checks, is funded, crosses, and what it can match reaches its size |
| Records.LegalRecordIff | src/state/state.rs:404-498 | over legal runs the records with something remaining are those of orders that meet that condition when they arrive |
| Records.ArrivalRecordIsStale | src/state/state.rs:421-435 | a limit order of positive size filled whole on arrival is on record as filled with all of it remaining |
| LedgerFailures.StaleRecordRun | src/state/state.rs:404-435 | a run of the ledger object that ends with such a record |
| LedgerFailures.StaleInputs | src/state/state.rs:404-435 | transactions for it at the lot sizes of the program's own market |
| Orphans.OrphanIff | src/state/state.rs:349-351 | in every state of every legal run from blank records, an open copy has a live order in a book if and only if its order was neither issued without a market or funds nor dropped with the level of another order that was cancelled |
| LedgerFailures.OrphanRun | src/state/state.rs:349-375 | a run of the ledger object that ends with an open copy of an order that is in no book |
| LedgerSolvency.TxIsHouseStep | src/state/state.rs:313-605 | an order or cancel transaction that passes the checks is one legal step of the clearing house, and one that does not leaves it alone |
| LedgerSolvency.TransferEffect | src/state/state.rs:219-311 | a transfer leaves the markets alone, keeps the house solvent and adds its amount, if it executes, to the supply |
| LedgerSolvency.LedgerConserves | src/state/state.rs:313-662 | over every run of transactions, rejected and replayed ones included, copies agree with books, books are well formed and uncrossed, and supplies change by the executed transfers alone |
| LedgerSolvency.LedgerSupply | src/state/state.rs:313-662 | over every run of legal transactions supply changes exactly by executed transfers and by what completed self-filled makers are settled for beyond their fills |
| LedgerSolvency.TxSolventIff | src/state/state.rs:313-635 | a transaction keeps the house solvent if and only if the account's slack bears it, and underflows no balance |
| LedgerSolvency.LedgerSolventIff | src/state/state.rs:313-662 | the house is solvent in every state of a run if and only if the slack suffices at every limit order that fills in part and every refund |
| TxBalances.TxMoves | src/state/state.rs:313-635 | every transaction, answered or not, changes each account's available and total balance of each asset by exactly the amounts its fills, its lock, its refund or its transfer give, known before it |
| TxBalances.RunBalances | src/state/state.rs:637-662 | in every state of every legal run each balance is the first one plus all those amounts so far |
| LedgerObjects.LedgerObject.HandleTransfer | src/state/state.rs:219-311 | executes only with the expected nonce and funds; then debits by position, credits by asset (`Transfers.TransferBalances`) and advances the sender's nonce by one |
| LedgerObjects.LedgerObject.HandleLimit | src/state/state.rs:313-533 | nonce gate, self-cross check, id issue, open copy, match and copies of the makers together are one limit order transaction; `TxAnswers.AnswerIff` says when it is answered, `TxCopies.TxFollows` and `TxBalances.TxMoves` what it leaves |
| LedgerObjects.LedgerObject.HandleMarket | src/state/state.rs:313-533 | nonce gate, id issue, match, completed record and copies of the makers together are one market order transaction; `TxAnswers.MarketRecordHolds` says what the record holds, `TxCopies.TxFollows` and `TxBalances.TxMoves` what it leaves |
| LedgerObjects.LedgerObject.HandleCancel | src/state/state.rs:535-605 | nonce gate, lookup, cancel and completion together are one cancel transaction; `TxAnswers.AnswerIff` says when it is answered, `TxCopies.TxFollows` and `TxBalances.TxMoves` what it leaves |
| LedgerObjects.LedgerObject.ApplyBlock | src/state/state.rs:637-662 | executing a block's transactions in turn is a run of the ledger and keeps the invariant |
| Merkle.ComputeMerkleRoot | src/hotstuff/block.rs:93-123 | the in-place loop stays in bounds, ends, and returns the recursive pairwise root |
| Merkle.RootInjective | src/hotstuff/block.rs:93-123 | lists of one length with one root are equal |
| Merkle.RootsAgreeIff | src/hotstuff/block.rs:93-123 | two lists of transaction hashes, of any lengths, have one root if and only if they pad to one list |
| Merkle.CollisionIsExtension | src/hotstuff/block.rs:93-123 | of two lists with one root the shorter is a prefix of the longer |
| Merkle.RepeatedLastCollides | src/hotstuff/block.rs:102-104 | a list of odd length above one collides with itself plus its last element |
| Merkle.RepeatedPairCollides | src/hotstuff/block.rs:102-104 | a list of an odd number of pairs above one collides with itself plus its last pair |
| Quorums.Verify | src/hotstuff/crypto.rs:109-142 | accepts the genesis certificate, and others if and only if a quorum of distinct validators' first signatures is valid |
| Quorums.LabelsNotChecked | src/hotstuff/crypto.rs:109-142 | an accepted certificate is accepted under any other view and block |
| Quorums.LabelsBoundIff | src/hotstuff/crypto.rs:109-142 | with quorums of more than half, a quorum signed an accepted certificate's own view and block if and only if its message is the vote for them |
| Quorums.LabelsAmbiguous | src/hotstuff/crypto.rs:109-142 | with smaller quorums there is an accepted certificate whose labels a quorum signed although its message is another |
| Quorums.OverlapIff | src/hotstuff/replica.rs:137-140 | any two quorums share (n - 1) / 3 + 1 validators if and only if n is one more than a multiple of three |
| Quorums.AcceptedOverlap | src/hotstuff/crypto.rs:109-142 | two accepted certificates share 2q - n endorsers, f + 1 if n = 3f + 1 |
| Quorums.TryCreateQc | src/hotstuff/replica.rs:150-209 | certifies a block if and only if a quorum's first valid votes of the view are for it (`Quorums.BucketCounts`); the certificate binds view and block and is accepted; with quorums of more than half the result does not depend on the order of visiting buckets |
| Quorums.OneBlockIff | src/hotstuff/replica.rs:137-206 | whatever messages arrive at most one block per view reaches quorum, if and only if there are not 2, 3 or 6 validators |
| Quorums.TwoWinners | src/hotstuff/replica.rs:137-206 | otherwise there are messages of one view with which two blocks reach quorum |
| Quorums.BucketCounts | src/hotstuff/replica.rs:150-206 | the signatures collected for a block of a view are as many as the validators whose first valid vote among the messages is for it |
| HotStuff.CheckExtends | src/hotstuff/block.rs:60-91 | the walk over three ancestors is the recursive search |
| HotStuff.ExtendsFromSound | src/hotstuff/block.rs:60-91 | it only ever finds ancestors that the hashes commit to |
| HotStuff.ExtendsFromComplete | src/hotstuff/block.rs:60-91 | with the blocks in the store it finds every ancestor within reach |
| HotStuff.HotStuffReplica.React | src/hotstuff/replica.rs:401-536 | the stored block, the vote, the two certificates and the commit are those of the reference rules, which `HotStuff.VotesIff`, `HotStuff.VoteEffect` and `HotStuff.NoVoteEffect` state in plain terms, with the certificate, the ancestors and the Merkle root checked by the loops above |
| HotStuff.VotesIff | src/hotstuff/replica.rs:401-467 | a replica votes if and only if the proposal is the leader's, it holds the justified block, the certificate is newer than the lock or one of the next three stored ancestors is the locked block, a quorum signed the certificate or it is the genesis one, every transaction is genuine and the Merkle root is that of the transactions |
| HotStuff.VoteEffect | src/hotstuff/replica.rs:469-519 | all that a vote changes: the proposal is stored; over one direct link its certificate becomes the highest, over two the parent's becomes the lock, over three the block there is committed, as the next of the list |
| HotStuff.NoVoteEffect | src/hotstuff/replica.rs:401-467 | without a vote at most the proposal is stored |
| HotStuff.VotesAgainIff | src/hotstuff/replica.rs:435-500 | in any state with a sound store, a replica that voted for a block votes for a sibling with the same certificate if and only if that sibling's contents are sound |
| HotStuff.SecondVote | src/hotstuff/replica.rs:435-500 | and there always is one of the same view with another hash |
| HotStuff.VotesTwice | src/hotstuff/replica.rs:435-467 | a new replica votes for any two sound children of the genesis block in one view |
| LockFalls.LockFallsIff | src/hotstuff/replica.rs:469-500 | a vote lowers the lock if and only if the justified block, under two direct links, carries an older certificate than the lock |
| LockFalls.LockCanFall | src/hotstuff/replica.rs:401-536 | any quorum of voters can vote for six proposals on two branches after which the lock has fallen from view 2 to view 1 |
| Agreement.JustifyCertified | src/hotstuff/replica.rs:435-446 | a certificate that a correct replica votes on certifies its block |
| Agreement.OnePerView | src/hotstuff/replica.rs:137-140 | at most one block is certified per view |
| Agreement.VoteLocks | src/hotstuff/replica.rs:469-500 | voting for the third block of a certified chain locks on the first |
| Agreement.ChainIsFinal | src/hotstuff/replica.rs:211-218 | every certified block in a view no lower than that of the first block of a three-chain descends from it |
| Agreement.CommitHasChain | src/hotstuff/replica.rs:504-519 | a commit rests on a certified three-chain |
| Agreement.CommitsAgree | src/hotstuff/replica.rs:419-519 | blocks committed by correct replicas are on one branch |
| HonestRun.CrewOfTwoThirds | src/hotstuff/replica.rs:137-140 | any 2f + 1 of 3f + 1 validators can be the voters, the others silent |
| HonestRun.HonestRunExists | src/hotstuff/replica.rs:401-536 | there is a run of every length in which the voters take turns |
| HonestRun.HonestRunMeetsHypotheses | src/hotstuff/replica.rs:401-536 | every such run meets all hypotheses |
| HonestRun.HonestRunCommits | src/hotstuff/replica.rs:504-519 | in it every vote from the fourth block on commits the block three below, in consecutive views |
| HonestRun.HonestRunHolds | src/hotstuff/replica.rs:469-519 | in every state of it each voter's highest certificate is that for the block below the last one it voted for, and its committed list is the chain in order, without gaps |
| Necessity.LocksMustGrow | src/hotstuff/replica.rs:469-519 | any quorum of voters and one more correct validator have a run that meets all hypotheses of agreement but rising locks, and commits two blocks on different branches, each in consecutive views |
| Necessity.ViewsMustIncrease | src/hotstuff/replica.rs:435-519 | the same with all hypotheses but votes in increasing views |
| MessageWindows.WindowRefinesLog | src/hotstuff/message_window.rs:33-74 | after any pushes and prunes each view from the lowest on holds exactly the messages pushed for it, in order |
| MessageWindows.SlotHasOneView | src/hotstuff/message_window.rs:53-74 | the messages of a view are of that view |
| MessageWindows.MessageWindow.Push | src/hotstuff/message_window.rs:53-74 | appends to the message's view if it is not pruned, and changes no other view |
| MessageWindows.MessageWindow.PruneBeforeView | src/hotstuff/message_window.rs:33-51 | raises the lowest view and keeps every view from there on |
| MessageWindows.MessageWindow.GetMessagesForView | src/hotstuff/message_window.rs:76-88 | nothing outside the window, else the view's messages |
| MessageWindows.MessageWindowIter.Next | src/hotstuff/message_window.rs:103-120 | yields the next message, and nothing exactly at the end |
| MessageWindows.Collect | src/hotstuff/message_window.rs:90-120 | iteration visits the concatenation of the views |
| Mempool.CountersBound | src/hotstuff/mempool.rs:67-168 | under any interleaving the counters bound slots and transactions from above, and are never negative |
| Mempool.BatchFacts | src/hotstuff/mempool.rs:110-146 | a batch has at most n transactions, distinct in account and nonce, in priority then arrival order, exactly the stored ones of the drained slots |
| Mempool.DrainIsPrefix | src/hotstuff/mempool.rs:116-135 | draining takes a prefix of the service order and leaves the rest |
| Mempool.InsertPlaces | src/hotstuff/mempool.rs:67-93 | a ready cancel is served before ready orders and transfers, those last, a future transaction waits and a past one is dropped; the transaction replaces what its slot stored and all other slots stand |
| Mempool.UpdatePromotes | src/hotstuff/mempool.rs:156-168 | the reported slots that are stored join the end of the service order, and nothing else changes |
| Mempool.TwoQueues | src/hotstuff/mempool.rs:67-168 | in every run the service order is that of two queues, one of ready cancels and behind it one of ready orders and transfers, and batches come off the front |
| Mempool.FirstInFirstOut | src/hotstuff/mempool.rs:67-168 | what waits in each queue is the end of all that ever became ready there |
| Mempool.GapsCount | src/hotstuff/mempool.rs:67-168 | over every run the length exceeds the stored transactions by the number of inserts that hit a stored slot, and the ready counter the queued slots by the number of drained slots that served nothing |
| Mempool.IdleIff | src/hotstuff/mempool.rs:110-146 | a batch serves all the slots it drains if and only if they are stored and distinct |
| Mempool.CountersDrift | src/hotstuff/mempool.rs:67-168 | neither gap ever shrinks; they are closed if and only if no insert so far hit a stored slot, and every batch drained only stored, distinct slots |
| Mempool.PriorityMempool.Insert | src/hotstuff/mempool.rs:67-93 | stores the transaction under account and nonce unless its nonce is past, queues its slot if and only if the nonce is the expected one, and keeps the counter bounds |
| Mempool.PriorityMempool.PopNextN | src/hotstuff/mempool.rs:110-146 | returns the stored transactions of the first n slots in service order, at most n, removes them, and no decrement underflows |
| Mempool.PriorityMempool.UpdateAfterExecution | src/hotstuff/mempool.rs:156-168 | appends to the last bucket exactly the reported slots that are stored, in order, and keeps the counter bounds |

## Left out

- Networking, client and peer handlers, runner, console, configuration, logging, serialization.
- Ed25519, SHA-256 and bincode: signatures and hashes are ideal terms, injective by construction.
- The leader's side: catching up with the highest certificate among new-view messages and making its proposal (src/hotstuff/replica.rs:300-365); a proposal is an input.
- Pacemaker timers and leader rotation: a proposal carries its view and whether it is from the leader.
- Liveness and message delivery.
- `average_execution_price`, a reporting value; it divides by the lots traded, which the model does not follow into its failure when they are 0.
- Asset table lookups: a market carries its lot sizes, which the program looks up for every order.
- Market creation, queries, transaction statuses and rejection messages.
- `_pop_next` of the mempool.
- Pending and committed transaction tables of the replica, and the pruning of its message window after a vote.
- The liquidation bucket of the mempool is served first but nothing fills it, as in the program.
- Sweeps.SweepLevel: the three sweeps write the scan of a level out separately; the model has it once, with an optional taker for the self-trade rule.
- Settlement.SettleFills: each maker's outgoing amount is booked before its incoming one in all cases; the program books some market orders' makers the other way round, with the same balances after each maker.
- SpotMarkets.SpotMarket.HandleMarketOrder: requires priced asks for a market buy, because the program divides by the price.
- SpotClearingHouses.SpotClearingHouse.PlaceMarket: requires a funded market buy, because the program subtracts unavailable funds.
- BookEdits.CancelOrder: requires a level volume that bears the cancel, because the program's subtraction underflows otherwise (`BookEdits.CancelOutcomes` says when).
- SpotMarkets.SpotMarket.Cancel: requires the same.
- SpotClearingHouses.SpotClearingHouse.CancelOrder: requires the same.
- LedgerObjects.LedgerObject.HandleTransfer: requires that the position it debits exists and holds the amount, because the program indexes and subtracts without a check.
- LedgerObjects.LedgerObject.HandleLimit: requires a positive size of an order that gets past the nonce and self-cross checks to a market.
- LedgerObjects.LedgerObject.HandleMarket: requires a funded market buy over priced asks if the nonce is the expected one and the market exists.
- LedgerObjects.LedgerObject.HandleCancel: requires a safe cancel if nonce, order and market are right; after an unsafe one the book is out of order (`BookEdits.CancelOutcomes`).
- LedgerObjects.LedgerObject.ApplyBlock: requires each transaction to be legal when its turn comes, whatever the outcomes before it.
- Agreement.CommitsAgree: the consecutive views of the committed chain are a hypothesis; the program checks parent links only.
