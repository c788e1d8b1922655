# Verified model of Hayaku

A Dafny model of the parts of Hayaku, a C++ quantitative trading library, where state, arithmetic or concurrency make
the code hard to get right, with proofs of what those parts are for.

`dafny verify dfyconfig.toml` checks the whole project with Dafny 4.11.

**The execution account** (`Rounding`, `Fifo`, `Accounts`, `Plans`, `Meters`, `EventLaws`, `OrderLaws`, `ShortLaws`,
`Settlement`, `Runs`, `Held`, `History`, `Queues`, `Shorts`, `Funds`, `Solvency`, `BorrowValues`, `Replay`,
`ReplayedQueues`, `ReplayedValue`, `StockBase`, `CashStamps`, `Execution`). `ExecutionRuntime` keeps everything twice:
live, in cash, position maps and FIFO queues, and as a log of trade records that its queries replay. Corporate actions
are settled lazily.
`Accounts` says what each operation does to the book and the log, as functions with every branch of the source;
`Execution` is the class whose methods and loops do it in place, each proved to be a step of those functions. `Plans`
flattens the nested operations. `EventLaws`, `OrderLaws` and `ShortLaws` say of each event and operation, in terms of
its own inputs, when it is accepted and what it moves. Everything else is proved over runs: conservation, settlement
exactly once, time travel, cash that is never overdrawn, queue order, short equals borrowed, the replay of the funds,
and where profit comes from.

Money is an integer count of 10^-precision units; `Rounding` proves that `roundEx` is the identity on that grid for the
precisions it works for. Prices and share numbers are reals. Trade costs, stock attributes, ex-rights events and the
order `std::sort` gives equal dates are parameters; `Environment` says what is assumed of them: a precision from 2 to 9,
a sort that permutes into date order, events in date order and at midnight.

**Price adjustment** (`Weights`, `KRecords`, `PriceAdjustment`, `EqualRatio`, `PriceLaws`, `PrivateBuffer`). Four
in-place sweeps over a bar buffer. Each is a loop over an array, proved against a recursive description; the theorems
join the forward and the backward series, and say in shares and money what an event does to a price and that its holder
loses nothing.

**Concurrency** (`LockKey`, `FileLocks`, `WeightCache`, `Session`). Each protocol is a state machine whose steps are the
points where threads and processes can interleave; a run is any sequence of steps. Mutexes, shared mutexes, atomics and
`fcntl` record locks are modelled by what they promise. Main results hold for every run.

**K-line index** (`KLineIndex`). Realtime updates, date and index queries and both position searches, with indices that
cannot go below zero.

**Filters and codecs** (`Filters`, `Reals`, `Base64`). The Kalman filter and the adaptive moving average in exact
arithmetic, and Base64 in both alphabets.

Where the code and its documentation differ, the model follows the code:

- `Base64.h` says illegal characters are passed over without a warning; the decoder throws. `InvalidExactly` says on
  which strings, and `StrangeCharacters` gives one that decodes and one that does not.
- `FileLock.cpp` promises that one inode has one key; a path through `..` has another (`ParentDirectoryHasItsOwnKey`),
  and then one process can hold a lock twice (`ExclusiveExactly`).
- The account's running value of withdrawn stock has the wrong sign (`RebuiltBases`, `WithdrawalSplitsBases`).
- A settlement adds dividends to the cash of records that hold them already, and the historical funds read the cash of
  a date from there (`NewestStampExactly`, `DividendCountedTwice`).
- A cover at a price of zero or less is carried out, and its return of stock refused (`ShortIsBorrowedThroughout`,
  `CoverKeepsBorrowed`).
- The historical funds store share numbers as unsigned integers (`ReplayRebuilds`, `QueuesRebuiltExactly`; inputs in
  `FractionIsLost` and `HalfReturnIsLost`).
- `roundUp` adds a whole unit to a value that is already on the grid (`RoundUpGoesOut`). Moving a value across
  zero by a grid value does not commute with `roundEx` next to a half (`RoundShiftAcrossZero`, `HalfAcrossZero`).
- The parameter check of the adaptive moving average admits periods for which the average overshoots
  (`InRangeExactly`), and its rolling volatility is not that of its window (`RollingVolatility`,
  `RollingVolatilityLags`).
- Backward adjustment raises the bar before an ex-date on which a daily-bar stock does not trade. The composition
  of the event maps joins the two series only where such events leave a price alone (`DailyBarsMeetExactly`,
  `SuspendedStock`); for equal ratios the same holds of the product of the ratios (`DailyEqualMeetExactly`,
  `SuspendedRatio`).

## Model

| member | source | states |
|---|---|---|
| Meters.LogExplainsBook | hayaku_cpp/src/execution/ExecutionRuntime.cpp:607-1464 | Conservation: after every sequence of operations the cash is the sum of the flows of all trade records (deposits, withdrawals, loans, trades, dividends, every cost), and in the same way the cash base, stock base, borrowed cash, each stock's long, short and borrowed number and the gain of the long side are sums over the log; the loan list adds up to the borrowed cash and each borrow queue to its number |
| Meters.SumPermutation | hayaku_cpp/src/execution/ExecutionRuntime.cpp:1898-1902 | Sorting a buffer of settled records changes none of these sums |
| Settlement.UpdateAppliesNewDays | hayaku_cpp/src/execution/ExecutionRuntime.cpp:1820-1838 | Exactly once: although the window of a settlement starts at the last record of the log and not at the last settlement, it applies the events dated after the last settlement and up to the new date, and no other |
| Settlement.UpdateQuiets | hayaku_cpp/src/execution/ExecutionRuntime.cpp:1820-1919 | After any settlement nothing is outstanding: the events between the last record and the last settlement leave no record |
| Settlement.UpdateTwice | hayaku_cpp/src/execution/ExecutionRuntime.cpp:1820-1919 | update(d1); update(d2) leaves the same positions, cash and dates as update(d2), and the same records up to the order of equal dates |
| EventLaws.SharesOfEvent | hayaku_cpp/src/execution/ExecutionRuntime.cpp:1845-1895 | Ten shares held become exactly 10 + countAsGift + increasement where nothing is consolidated; a consolidation follows on the gifts, goes on to the next whole number beyond when it leaves fewer shares, cuts off to a whole number when it leaves more, and leaves a fraction alone when it changes nothing |
| EventLaws.SharesAdd | hayaku_cpp/src/execution/ExecutionRuntime.cpp:1860-1867 | Without a consolidation two holdings receive together what they receive one by one |
| EventLaws.DividendOfEvent | hayaku_cpp/src/execution/ExecutionRuntime.cpp:1849-1858 | The dividend is the money nearest to bonus for every ten of the shares held before the gifts, and that money itself where it is a whole number of units |
| EventLaws.RecordsOfEvent | hayaku_cpp/src/execution/ExecutionRuntime.cpp:1849-1892 | An event leaves a record of the dividend, of the shares it gave and of the change of their number by a consolidation, each only where there is something to record |
| EventLaws.SettledByOneEvent | hayaku_cpp/src/execution/ExecutionRuntime.cpp:1820-1919 | `updateWithWeight`, with one event to settle, does this to the position the live account shows |
| EventLaws.SettledShares | hayaku_cpp/src/execution/ExecutionRuntime.cpp:1820-1919 | With any number of events and no consolidation it multiplies every holding of the stock by the product of (10 + countAsGift + increasement) / 10 |
| Runs.LazyIsEager | hayaku_cpp/src/execution/ExecutionRuntime.cpp:1820-1919 | Over every run in date order, settling at every midnight and settling only when an operation needs it lead to the same account once both are settled at one date, with the same records up to the order of equal dates |
| Runs.OperationInOrder | hayaku_cpp/src/execution/ExecutionRuntime.cpp:607-1464 | In date order, an operation either is refused and changes nothing, or settles up to its date and appends only records of that date behind the settled ones |
| Held.EachEventOnce | hayaku_cpp/src/execution/ExecutionRuntime.cpp:1820-1919 | Exactly once over runs: in any run in date order, while a stock is held and not traded, its position passes through every event of the days settled since exactly once and in date order, and the log gains exactly the records of that passage, whatever else the account does and however often it settles |
| Plans.OperationIsItsPlan | hayaku_cpp/src/execution/ExecutionRuntime.cpp:607-1464 | Every operation, with its nested deposits, loans, repayments and stock loans, has the effect of a flat sequence of postings of at most one record each |
| History.StepTidies | hayaku_cpp/src/execution/ExecutionRuntime.cpp:607-1464 | Every operation keeps the trade log in date order, also one that comes out of order |
| History.UptoRecovers | hayaku_cpp/src/execution/ExecutionRuntime.cpp:344-370 | A log in date order that holds one set of records up to a date and later ones besides is replayed up to that date as exactly the former |
| History.QueriesTravelBack | hayaku_cpp/src/execution/ExecutionRuntime.cpp:324-475 | Time travel: in every run in date order, the long, short, borrowed-share and borrowed-cash numbers a query gives for a date, asked after any later operations, are what the live account showed when it was settled at that date |
| OrderLaws.OpeningLaw | hayaku_cpp/src/execution/ExecutionRuntime.cpp:104-140 | A new account holds its initial cash rounded to hundredths, whatever its precision from 2 to 9, and nothing else |
| OrderLaws.BuyLaw | hayaku_cpp/src/execution/ExecutionRuntime.cpp:1004-1134 | On an account that does not finance by itself, an order past its entry checks returns a trade exactly when the settled cash covers the rounded price * number * unit together with the cost; the cash falls by that sum and the held number rises by the number, and a refused order leaves the settled account as it is |
| OrderLaws.FinancedBuyLaw | hayaku_cpp/src/execution/ExecutionRuntime.cpp:1041-1084 | On an account that does, a deposit of the margin gap and one unit and a loan of the money and one unit come first; the purchase is then made from what has been raised, or what has been raised stays |
| OrderLaws.SellLaw | hayaku_cpp/src/execution/ExecutionRuntime.cpp:1136-1240 | A sale goes through exactly when that many shares are held after the settlement, brings the rounded money less the cost, moves a holding it empties to the history, and is followed by a repayment of all the debt the cash reaches, if the cash covers the cost of that as well |
| OrderLaws.CheckinLaw | hayaku_cpp/src/execution/ExecutionRuntime.cpp:607-627 | A deposit of positive cash raises cash and cash base by its rounded amount |
| OrderLaws.CheckoutLaw | hayaku_cpp/src/execution/ExecutionRuntime.cpp:629-656 | A withdrawal goes through exactly when the settled cash covers its rounded amount |
| OrderLaws.CheckinStockLaw | hayaku_cpp/src/execution/ExecutionRuntime.cpp:658-706 | Deposited shares join the holding at their rounded worth, which raises the stock base |
| OrderLaws.CheckoutStockLaw | hayaku_cpp/src/execution/ExecutionRuntime.cpp:708-761 | A withdrawal of shares goes through exactly when that many are held after the settlement |
| OrderLaws.BorrowCashLaw | hayaku_cpp/src/execution/ExecutionRuntime.cpp:763-784 | A loan raises the cash by its rounded amount less its cost and the debt by the amount, and stands last among the loans |
| OrderLaws.ReturnCashLaw | hayaku_cpp/src/execution/ExecutionRuntime.cpp:786-856 | A repayment goes through exactly when that much is owed and the settled cash covers it together with its cost |
| OrderLaws.RepaymentCost | hayaku_cpp/src/execution/ExecutionRuntime.cpp:802-829 | A repayment costs what the loans it repays whole cost, each for its own amount and time, and what the part of the loan it ends in costs |
| OrderLaws.DepositWithdrawn | hayaku_cpp/src/execution/ExecutionRuntime.cpp:607-656 | A deposit withdrawn again on its day leaves the settled account, and can be withdrawn exactly when the account was not overdrawn before |
| OrderLaws.LoanRepaid | hayaku_cpp/src/execution/ExecutionRuntime.cpp:763-856 | A first loan repaid on its day leaves the settled account less the two costs, and can be repaid exactly when the account had them |
| OrderLaws.BoughtAndSold | hayaku_cpp/src/execution/ExecutionRuntime.cpp:1004-1240 | Shares bought and sold again on their day at one price cost the account exactly the two costs and leave its holding as it was, and can be sold exactly when that was not negative |
| ShortLaws.BorrowStockLaw | hayaku_cpp/src/execution/ExecutionRuntime.cpp:858-905 | Lent shares stand last in the queue of their stock, at their price; the account pays the cost |
| ShortLaws.ReturnStockLaw | hayaku_cpp/src/execution/ExecutionRuntime.cpp:907-1002 | A return of stock goes through exactly when that much is owed after the settlement, takes the oldest lots, and ends the debt with the last of them |
| ShortLaws.ReturnCost | hayaku_cpp/src/execution/ExecutionRuntime.cpp:942-969 | Every lot a return touches, the last one included, is charged for the whole number returned |
| ShortLaws.SellShortLaw | hayaku_cpp/src/execution/ExecutionRuntime.cpp:1242-1374 | A short sale goes through exactly while some of the borrowed stock is not sold yet, sells what was ordered but no more than that, and brings the money less the cost, rounded once; an account that borrows stock by itself first pays in the margin gap and borrows the ordered number. The buy money of a short position that grows is rounded to whole money |
| ShortLaws.BuyShortLaw | hayaku_cpp/src/execution/ExecutionRuntime.cpp:1376-1464 | A cover buys at most what is short, whatever cash there is, and an account that borrows by itself then gives that number back, if it owes as much |
| Solvency.NeverOverdrawn | hayaku_cpp/src/execution/ExecutionRuntime.cpp:607-1464 | In every run from non-negative cash the cash is never negative, as long as the business that no guard looks at pays for itself: dividends, sales, loans and short business; purchases, withdrawals and repayments need no assumption |
| Solvency.LongOnlyNeverOverdrawn | hayaku_cpp/src/execution/ExecutionRuntime.cpp:607-1240 | So it is at every point of every long-only run with non-negative dividends in which no sale costs more than it brings |
| Fifo.DropOldest | hayaku_cpp/src/execution/ExecutionRuntime.cpp:835-848 | The do-while loop that gives an amount back ends and leaves the queue without that amount |
| Fifo.TakeOldestTotal | hayaku_cpp/src/execution/ExecutionRuntime.cpp:835-848 | Giving back an amount the queue holds lowers its total by exactly that amount |
| Fifo.TakeOldestShifts | hayaku_cpp/src/execution/ExecutionRuntime.cpp:835-848 | First in, first out: after `n` is given back, what stands at any position is what stood `n` further back, with its date and price |
| Fifo.AppendAtEnd | hayaku_cpp/src/execution/ExecutionRuntime.cpp:775-779 | A new lot goes behind all others and moves none of them |
| Fifo.ShortfallIsZero | hayaku_cpp/src/execution/ExecutionRuntime.cpp:807-829 | The cost scan covers the amount exactly when the queue holds it |
| Fifo.TakeOldestEmpties | hayaku_cpp/src/execution/ExecutionRuntime.cpp:835-848 | A queue runs empty exactly when all it holds is given back |
| Queues.QueuesAreFifo | hayaku_cpp/src/execution/ExecutionRuntime.cpp:763-1002 | Over every run, the loan list and the borrow queue of each stock are what the log tells, and nothing is returned that is not owed; a queue with no negative number on record, as the loan list never has one, is first in, first out: the lots of the log in order without the returned front, position by position |
| Queues.NegativeReturn | hayaku_cpp/src/execution/ExecutionRuntime.cpp:858-1002 | A return of a negative number is not turned away and makes the debt larger |
| Shorts.ShortIsBorrowedThroughout | hayaku_cpp/src/execution/ExecutionRuntime.cpp:215-242 | In every run of submitted orders, deposits, withdrawals and loans on an account that borrows stock by itself, after every operation each stock's short number is its borrowed number and the two entries appear and vanish together, exactly when no cover on record is at a price of zero or less |
| Shorts.CoverKeepsBorrowed | hayaku_cpp/src/execution/ExecutionRuntime.cpp:1376-1464 | A cover whose return of stock is refused leaves more borrowed than short |
| Replay.ReplayRebuilds | hayaku_cpp/src/execution/ExecutionRuntime.cpp:1600-1682 | Over every run, the replay of the full log rebuilds the borrowed cash and the cash base; of every long and short holding it loses the fraction of the first number on record, because it stores that as an unsigned integer, so it rebuilds a holding exactly when that number is whole (a negative one has no unsigned integer) |
| Replay.FractionIsLost | hayaku_cpp/src/execution/ExecutionRuntime.cpp:1600-1682 | One share and a half deposited: the replay finds one share |
| ReplayedQueues.QueuesRebuiltExactly | hayaku_cpp/src/execution/ExecutionRuntime.cpp:1695-1754 | Over every run with positive numbers of a stock on record, the replay rebuilds its borrow queue lot by lot exactly when every return cuts the live queue at whole numbers, its own number and what each lot it takes leaves of it; otherwise the rebuilt queue owes more than the live one from then on |
| ReplayedQueues.HalfReturnIsLost | hayaku_cpp/src/execution/ExecutionRuntime.cpp:1715-1754 | One share and a half borrowed and half a share returned: one share is owed, and the replay finds one and a half |
| ReplayedValue.MarketValueRebuiltExactly | hayaku_cpp/src/execution/ExecutionRuntime.cpp:1766-1777 | Over every run, the replayed market value of the long holdings is not above the live one, and equals it exactly when what the replay drops of each holding does not change its rounded worth |
| CashStamps.NewestStampExactly | hayaku_cpp/src/execution/ExecutionRuntime.cpp:1838-1912 | The cash of a date is read from its newest record: after a settlement that record carries the live cash and on top of it every dividend paid before it was written, its own included, so it is right exactly when these add up to nothing |
| CashStamps.DividendCountedTwice | hayaku_cpp/src/execution/ExecutionRuntime.cpp:1849-1912 | Ten shares and one dividend of 10.00: the account gains 10.00, and its record says 20.00 |
| CashStamps.AddDividends | hayaku_cpp/src/execution/ExecutionRuntime.cpp:1904-1912 | The two loops over the sorted buffer add to every record the dividends up to it |
| StockBase.RebuiltBases | hayaku_cpp/src/execution/ExecutionRuntime.cpp:708-761 | Over every run, the live running value of withdrawn stock is the replayed one with the wrong sign; so where positive numbers are transferred, the live stock base exceeds the rebuilt one by twice the worth of the withdrawn stock, and the two agree exactly when every withdrawal on record is worth nothing |
| StockBase.WithdrawalSplitsBases | hayaku_cpp/src/execution/ExecutionRuntime.cpp:755-758 | One share at 10.00 deposited and withdrawn again: the live base is 20.00 and the rebuilt one nothing |
| Funds.ProfitAttribution | hayaku_cpp/src/execution/ExecutionRuntime.cpp:1484-1521 | In every run without withdrawn stock, profit is market value less short market value plus sell money less buy money and costs over open and closed positions, plus the flows of the short side, less the cost of loans |
| Funds.LongOnlyProfit | hayaku_cpp/src/execution/ExecutionRuntime.cpp:1004-1240 | In every long-only run, with deposits, share deposits and dividends, profit is the market value plus sell money less buy money and costs over all open and closed positions |
| Funds.FlowsByOrigin | hayaku_cpp/src/execution/FundsRecord.h:37-70 | The cash flows of a log split, without rest, into base, loans, stock base, long gains, short flows and loan costs |
| Funds.MarketValueIsSum | hayaku_cpp/src/execution/ExecutionRuntime.cpp:1484-1507 | Rounding after every stock loses nothing: for holdings of non-negative worth the market value is the sum of their rounded worths |
| Funds.BorrowValueIsSum | hayaku_cpp/src/execution/ExecutionRuntime.cpp:1513-1518 | The borrow asset of the funds is the sum of what the borrow records carry, in whichever order they are taken |
| Funds.LoanRaisesBorrowAsset | hayaku_cpp/src/execution/ExecutionRuntime.cpp:858-905 | A stock loan raises the borrow asset of the funds by the rounded worth of the shares |
| BorrowValues.CarriedValue | hayaku_cpp/src/execution/ExecutionRuntime.cpp:891-973 | Over every run with positive numbers of a stock on record, its borrow record is carried at the rounded worth of the lots owed, less the rounding gaps of the lots that returns have cut since the stock was last not owed at all |
| BorrowValues.ReturnDrifts | hayaku_cpp/src/execution/ExecutionRuntime.cpp:934-973 | One return moves the carried value off the worth of the lots by exactly the gap of its own cut, a unit of money at most |
| Rounding.RoundingFixesGrid | hayaku_cpp/src/common/Arithmetic.h:84-125 | `roundEx` leaves every multiple of 10^-n alone exactly for n up to 9, where its fixed epsilon is below half a unit |
| Rounding.RoundShift | hayaku_cpp/src/common/Arithmetic.h:84-125 | Adding a grid value commutes with rounding as long as it does not move the value across zero |
| Rounding.RoundShiftAcrossZero | hayaku_cpp/src/common/Arithmetic.h:84-125 | Across zero it commutes exactly when no half unit lies within the epsilon of the scaled value |
| Rounding.HalfAcrossZero | hayaku_cpp/src/common/Arithmetic.h:84-125 | Half a unit below zero, moved up by one, does not |
| Rounding.RoundIsOddExactly | hayaku_cpp/src/common/Arithmetic.h:84-125 | Rounding a negated amount negates the rounded amount, on all values, exactly for n up to 9 |
| Rounding.RoundMonotoneAndNear | hayaku_cpp/src/common/Arithmetic.h:84-125 | Rounding is monotone and moves no value further than half a unit and the epsilon |
| Rounding.RoundDownTruncates | hayaku_cpp/src/common/Arithmetic.h:175-204 | For every sign and every number of digits, negative ones included, `roundDown` gives a multiple of the unit on the same side of zero, not further out than the value and less than a unit nearer to zero |
| Rounding.RoundUpGoesOut | hayaku_cpp/src/common/Arithmetic.h:138-167 | For every sign and number of digits `roundUp` gives a multiple of the unit on the same side of zero, always further out than the value, by at most a unit, and by a whole unit exactly for a value that is a multiple already |
| Rounding.RunningTotal | hayaku_cpp/src/common/Arithmetic.h:84-125 | A running total rounded after each non-negative amount is the sum of the rounded amounts, and mirrors when it is kept negated |
| Rounding.ComputeRoundUp | hayaku_cpp/src/common/Arithmetic.h:138-167 | The loop over the decimal factor and the branches on signs compute the specified `roundUp` for every number of digits, negative ones included |
| Rounding.ComputeRoundDown | hayaku_cpp/src/common/Arithmetic.h:175-204 | The same for `roundDown` |
| Execution.StepKeepsSound | hayaku_cpp/src/execution/ExecutionRuntime.cpp:607-1464 | Every operation keeps what the loops of the returns rely on: positions filed under their stock and queues that add up to their totals |
| Execution.ExecutionRuntime.constructor | hayaku_cpp/src/execution/ExecutionRuntime.cpp:104-140 | The new object is the opened account of the specification |
| Execution.ExecutionRuntime.UpdateWithWeight | hayaku_cpp/src/execution/ExecutionRuntime.cpp:1820-1919 | The two nested loops over positions and events, and the appended sorted buffer, are the specified settlement, which applies the events `UpdateAppliesNewDays` says, each as `SharesOfEvent` and `DividendOfEvent` say |
| Execution.ExecutionRuntime.Checkin | hayaku_cpp/src/execution/ExecutionRuntime.cpp:607-627 | The object is changed by exactly the specified step, refusal and result included |
| Execution.ExecutionRuntime.Checkout | hayaku_cpp/src/execution/ExecutionRuntime.cpp:629-656 | The object is changed by exactly the specified step, refusal and result included |
| Execution.ExecutionRuntime.CheckinStock | hayaku_cpp/src/execution/ExecutionRuntime.cpp:658-706 | The object is changed by exactly the specified step, refusal and result included |
| Execution.ExecutionRuntime.CheckoutStock | hayaku_cpp/src/execution/ExecutionRuntime.cpp:708-761 | The object is changed by exactly the specified step, refusal and result included |
| Execution.ExecutionRuntime.BorrowCash | hayaku_cpp/src/execution/ExecutionRuntime.cpp:763-784 | The object is changed by exactly the specified step, refusal and result included |
| Execution.ExecutionRuntime.ReturnCash | hayaku_cpp/src/execution/ExecutionRuntime.cpp:786-856 | The scan and the do-while loop change the object by exactly the specified step |
| Execution.ExecutionRuntime.BorrowStock | hayaku_cpp/src/execution/ExecutionRuntime.cpp:858-905 | The object is changed by exactly the specified step, refusal and result included |
| Execution.ExecutionRuntime.ReturnStock | hayaku_cpp/src/execution/ExecutionRuntime.cpp:907-1002 | The scan and the do-while loop change the object by exactly the specified step |
| Execution.ExecutionRuntime.Buy | hayaku_cpp/src/execution/ExecutionRuntime.cpp:1004-1134 | The object is changed by exactly the specified step, with the deposit and loan of an account that finances by itself; `BuyLaw` and `FinancedBuyLaw` say when it buys and what that moves |
| Execution.ExecutionRuntime.Sell | hayaku_cpp/src/execution/ExecutionRuntime.cpp:1136-1240 | The object is changed by exactly the specified step, with the repayment that follows a sale; `SellLaw` says what it is |
| Execution.ExecutionRuntime.SellShort | hayaku_cpp/src/execution/ExecutionRuntime.cpp:1242-1374 | The object is changed by exactly the specified step, with the deposit and stock loan before it; `SellShortLaw` says what it is |
| Execution.ExecutionRuntime.BuyShort | hayaku_cpp/src/execution/ExecutionRuntime.cpp:1376-1464 | The object is changed by exactly the specified step, with the return of stock after it; `BuyShortLaw` says what it is |
| Execution.ExecutionRuntime.ScanLoans | hayaku_cpp/src/execution/ExecutionRuntime.cpp:802-829 | The first loop of a repayment finds its whole cost and what the loans do not cover |
| Execution.ExecutionRuntime.ScanLots | hayaku_cpp/src/execution/ExecutionRuntime.cpp:942-969 | The first loop of a stock return finds its whole cost and the borrow value given back |
| Execution.ExecutionRuntime.ReplayHoldNumber | hayaku_cpp/src/execution/ExecutionRuntime.cpp:344-370 | The replay loop sums the long numbers of the records up to the date |
| Execution.ExecutionRuntime.ReplayDebtCash | hayaku_cpp/src/execution/ExecutionRuntime.cpp:462-474 | The replay loop sums the loans less the repayments up to the date |
| Execution.ExecutionRuntime.GetHoldNumber | hayaku_cpp/src/execution/ExecutionRuntime.cpp:324-371 | The query settles the object and gives the answer `QueriesTravelBack` is about |
| Execution.ExecutionRuntime.GetShortHoldNumber | hayaku_cpp/src/execution/ExecutionRuntime.cpp:373-417 | The query settles the object and gives the answer `QueriesTravelBack` is about |
| Execution.ExecutionRuntime.GetDebtNumber | hayaku_cpp/src/execution/ExecutionRuntime.cpp:419-451 | The query settles the object and gives the answer `QueriesTravelBack` is about |
| Execution.ExecutionRuntime.GetDebtCash | hayaku_cpp/src/execution/ExecutionRuntime.cpp:453-475 | The query settles the object and gives the answer `QueriesTravelBack` is about |
| Execution.ExecutionRuntime.GetTradeList | hayaku_cpp/src/execution/ExecutionRuntime.cpp:477-503 | The two lower bounds cut out exactly the records dated in [start, end) |
| Execution.ExecutionRuntime.GetFunds | hayaku_cpp/src/execution/ExecutionRuntime.cpp:1484-1521 | The three loops over the position and borrow maps give the funds `ProfitAttribution` is about, with market values that are the sums of the rounded worths of the holdings when none is worth less than nothing |
| Execution.ExecutionRuntime.ReplayFunds | hayaku_cpp/src/execution/ExecutionRuntime.cpp:1600-1764 | The replay loop gives what `ReplayRebuilds`, `QueuesRebuiltExactly` and `RebuiltBases` are about, for the records up to the date |
| Execution.ExecutionRuntime.SumReplayedValue | hayaku_cpp/src/execution/ExecutionRuntime.cpp:1766-1777 | The loop over the rebuilt holdings gives the value `MarketValueRebuiltExactly` is about |
| PriceAdjustment.DailyBars | hayaku_cpp/src/data/KDataPrivatedBufferImp.cpp:197-324 | One affine map, the composition of all event maps, turns every backward-adjusted price into the forward-adjusted one, for daily bars with a bar on each ex-date |
| PriceAdjustment.IntradayBars | hayaku_cpp/src/data/KDataPrivatedBufferImp.cpp:197-324 | The same for intraday bars when every event falls between two bars |
| PriceAdjustment.ForwardIsMappedBackward | hayaku_cpp/src/data/KDataPrivatedBufferImp.cpp:197-324 | The same for any bars, wherever both sweeps cut the buffer at the same bars |
| PriceLaws.OneEventForward | hayaku_cpp/src/data/KDataPrivatedBufferImp.cpp:197-248 | What one event does to the prices of the forward series: before its date (10 + gifts + rights + increasement) * adjusted == 10 * price - bonus + rights price * (gifts + rights + increasement), or suogu * adjusted == price; from its date on the bars stay. Volume times the same divisor is the unadjusted volume, and the amount is close times volume |
| PriceLaws.OneEventBackward | hayaku_cpp/src/data/KDataPrivatedBufferImp.cpp:264-324 | The same, with adjusted and unadjusted price exchanged, for the bars of the backward series from the cut on; volumes are divided here too |
| PriceLaws.OneEventEqualForward | hayaku_cpp/src/data/KDataPrivatedBufferImp.cpp:342-411 | In the equal-ratio forward series the record-date bar gets that very price and every bar before the date one and the same ratio; volumes are divided |
| PriceLaws.OneEventEqualBackward | hayaku_cpp/src/data/KDataPrivatedBufferImp.cpp:429-491 | In the equal-ratio backward series the bars from the cut on are scaled up by that ratio of the bar before the cut, and volumes are multiplied |
| PriceLaws.HolderLosesNothing | hayaku_cpp/src/data/KDataPrivatedBufferImp.cpp:226-240 | Ex-rights neutrality, between two components: without rights and consolidation, the shares a settlement leaves times the forward-adjusted close, plus the unrounded dividend, is the shares before times the close |
| PriceLaws.EventsApplied | hayaku_cpp/src/data/KDataPrivatedBufferImp.cpp:201-203 | The events an adjustment applies are exactly those dated from the midnight before its first bar until its last bar ends |
| PriceAdjustment.SeriesMeetExactly | hayaku_cpp/src/data/KDataPrivatedBufferImp.cpp:197-324 | For any ordered bars and either way of cutting: the composition of all event maps takes the backward-adjusted price of a bar to the forward-adjusted one exactly when the events for which both sweeps move the bar, or neither does, together leave its unadjusted price alone |
| PriceAdjustment.DailyBarsMeetExactly | hayaku_cpp/src/data/KDataPrivatedBufferImp.cpp:197-324 | For daily bars, traded on the ex-dates or not, these are the events dated strictly between the bar and the next one |
| PriceAdjustment.SuspendedStock | hayaku_cpp/src/data/KDataPrivatedBufferImp.cpp:282-294 | One such bar: the stock does not trade on its ex-date, the backward sweep raises the bar before the event too, and no map joins the two series |
| EqualRatio.EqualSeriesMeetExactly | hayaku_cpp/src/data/KDataPrivatedBufferImp.cpp:342-491 | For any bars and events, the one constant, the product of all event ratios, takes the backward-adjusted price of a bar to the forward-adjusted one exactly when the events up to the bar that the two sweeps treat differently leave together the factor one, or a zero makes both zero |
| EqualRatio.DailyEqualMeetExactly | hayaku_cpp/src/data/KDataPrivatedBufferImp.cpp:342-491 | For daily bars these are events on whose dates the stock is suspended, and those that start from a price of zero or leave one |
| EqualRatio.SuspendedRatio | hayaku_cpp/src/data/KDataPrivatedBufferImp.cpp:429-491 | A dividend on a day without a bar: the backward sweep takes the close of another day, and no constant joins the two series |
| EqualRatio.ForwardIsScaledBackward | hayaku_cpp/src/data/KDataPrivatedBufferImp.cpp:342-491 | Wherever both sweeps cut the buffer at the same bars, and no event starts from a price of zero or leaves one, the constant joins the two series, so price relations within a series are the same in both |
| EqualRatio.DailyEqualRatio | hayaku_cpp/src/data/KDataPrivatedBufferImp.cpp:342-491 | So they are for daily bars with a bar on each ex-date |
| EqualRatio.EqualForwardPrice | hayaku_cpp/src/data/KDataPrivatedBufferImp.cpp:342-411 | The forward sweep multiplies each bar by the ratios of exactly the events behind it, of those it does not skip |
| EqualRatio.EqualBackwardPrice | hayaku_cpp/src/data/KDataPrivatedBufferImp.cpp:429-491 | The backward sweep multiplies each bar by the ratios of exactly the events it cuts up to it, from unadjusted closes, although it reads them from the buffer it is changing |
| PriceAdjustment.CutsMeet | hayaku_cpp/src/data/KDataPrivatedBufferImp.cpp:217-294 | When the forward and the backward cut of an event meet, as an if-and-only-if over the bars around its date |
| PriceAdjustment.ForwardPrice | hayaku_cpp/src/data/KDataPrivatedBufferImp.cpp:197-248 | The forward sweep gives each bar the maps of exactly the events behind it, oldest first |
| PriceAdjustment.BackwardPrice | hayaku_cpp/src/data/KDataPrivatedBufferImp.cpp:264-324 | The backward sweep gives each bar the undone maps of exactly the events it cuts up to it, wherever it cuts |
| PriceAdjustment.AllLowerInjective | hayaku_cpp/src/data/KDataPrivatedBufferImp.cpp:197-324 | The map between the series can be undone |
| PriceAdjustment.BasesStay | hayaku_cpp/src/data/KDataPrivatedBufferImp.cpp:183-262 | The newest price of the forward series is the unadjusted one, but for the maps of the events dated after its bar; the oldest price of the backward series is the unadjusted one, but for those of the events the sweep cuts at its bar |
| PrivateBuffer.KDataPrivatedBuffer.RecoverForward | hayaku_cpp/src/data/KDataPrivatedBufferImp.cpp:197-248 | The in-place sweep leaves the forward-adjusted series in the buffer, in which one event moves prices as `OneEventForward` says |
| PrivateBuffer.KDataPrivatedBuffer.RecoverBackward | hayaku_cpp/src/data/KDataPrivatedBufferImp.cpp:264-324 | The in-place sweep leaves the backward-adjusted series in the buffer, in which one event moves prices as `OneEventBackward` says |
| PrivateBuffer.KDataPrivatedBuffer.RecoverEqualForward | hayaku_cpp/src/data/KDataPrivatedBufferImp.cpp:342-411 | The in-place sweep leaves the equal-ratio forward series in the buffer, in which one event moves prices as `OneEventEqualForward` says |
| PrivateBuffer.KDataPrivatedBuffer.RecoverEqualBackward | hayaku_cpp/src/data/KDataPrivatedBufferImp.cpp:429-491 | The in-place sweep leaves the equal-ratio backward series in the buffer, in which one event moves prices as `OneEventEqualBackward` says |
| PrivateBuffer.KDataPrivatedBuffer.GetPos | hayaku_cpp/src/data/KDataPrivatedBufferImp.cpp:69-83 | `std::lower_bound` answers a position exactly when the bar there has the datetime, and none exactly when no bar has it: the answer of the shared window |
| LockKey.NormalizeLockKey | hayaku_cpp/src/common/FileLock.cpp:70-99 | The loop over the path gives the specified key |
| LockKey.KeyKeeps | hayaku_cpp/src/common/FileLock.cpp:64-99 | The key has the root and the real components of the path: splitting what was joined gives them back |
| LockKey.KeyIsIdempotent | hayaku_cpp/src/common/FileLock.cpp:70-99 | Normalizing a key changes nothing |
| LockKey.SameKey | hayaku_cpp/src/common/FileLock.cpp:64-99 | Two paths get one key exactly when they agree on the root and on the components that are neither empty nor `.`; a path that has neither root nor component keeps its own spelling |
| LockKey.SameFileSpellings | hayaku_cpp/src/common/FileLock.cpp:64-99 | Repeated and trailing separators and `.` do not count |
| FileLocks.MutualExclusion | hayaku_cpp/src/common/FileLock.cpp:107-186 | In every interleaving of attempts, failed attempts, unlocks, moves, destructions and crashes, over any number of processes and threads, no file is held twice, every holder's process owns the record lock, and the kernel keeps no record lock without an object behind it |
| FileLocks.ExclusiveExactly | hayaku_cpp/src/common/FileLock.cpp:37-52 | Every run is exclusive exactly when no file has two keys among the paths in use |
| FileLocks.DropKeepsKernel | hayaku_cpp/src/common/FileLock.cpp:237-293 | Closing a descriptor or clearing the lock through it drops no record lock that another object has |
| FileLocks.AttemptSucceedsExactly | hayaku_cpp/src/common/FileLock.cpp:137-163 | A call of `tryLock` on its own ends with the lock held exactly when it was held already, or the mutex is free, no other process has the record lock and no system call fails; a failed call leaves the whole system as it was |
| FileLocks.ReleaseUndoesAttempt | hayaku_cpp/src/common/FileLock.cpp:178-186 | `unlock` undoes the `tryLock` that took the lock, in the object, the registry and the kernel, even when clearing the record lock fails |
| FileLocks.LifetimeLeavesNothing | hayaku_cpp/src/common/FileLock.cpp:101-186 | An object constructed, tried, unlocked and destroyed leaves the system as it was, whichever system call fails on the way |
| FileLocks.MoveHandsOver | hayaku_cpp/src/common/FileLock.cpp:107-135 | A move hands the lock and its place in the registry to the target and leaves the source without a path, so that it takes no lock again; the kernel and all other objects stay as they are |
| FileLocks.TwoKeysTwoHolders | hayaku_cpp/src/common/FileLock.cpp:64-99 | Two keys of one file let one process hold it twice |
| FileLocks.ParentDirectoryHasItsOwnKey | hayaku_cpp/src/common/FileLock.cpp:82-97 | A path through `..` is such a second key |
| WeightCache.CallsReadTheDriver | hayaku_cpp/src/data/Stock.cpp:568-653 | In every interleaving of readers and releases, a call that at most one release overlaps returns exactly the driver's events dated in [start, end); with more overlaps it returns those or nothing |
| WeightCache.TwoReleasesLoseTheAnswer | hayaku_cpp/src/data/Stock.cpp:614-652 | One overlap is the limit: for every non-empty answer there is a run in which a call that two releases overlap returns nothing |
| WeightCache.UndisturbedCallReturns | hayaku_cpp/src/data/Stock.cpp:568-653 | No reader waits for itself: with nobody else in its way every step of a call brings it nearer its end |
| WeightCache.RunIsSound | hayaku_cpp/src/data/DataRuntime.cpp:1204-1231 | The invariant of the flag, the list and the lock that every step keeps, the separate writes of a release included |
| WeightCache.CopyRange | hayaku_cpp/src/data/Stock.cpp:637-653 | The two lower bounds and the copying loop give exactly the events dated in [start, end) |
| Session.Lifetimes | hayaku_cpp/src/application/HayakuSession.cpp:41-131 | In every interleaving of opens, failing opens and closes: outside the critical sections the data runtime exists exactly when sessions are counted; process users are the open sessions and the calls in flight; the process runtime is up exactly while it has users; the data runtime never outlives it |
| Session.OpenSessionsShareOneRuntime | hayaku_cpp/src/application/HayakuSession.cpp:41-91 | An open session always has a data runtime that is published, and all open sessions have identical options; which opens get there is in `OpenSucceedsExactly` |
| Session.OpenSucceedsExactly | hayaku_cpp/src/application/HayakuSession.cpp:41-91 | After any run that leaves the mutex free, a new session whose steps run on their own, ends open exactly when no session is counted or all counted ones have its options, and nothing fails that it needs: the process runtime while nobody uses it, the data runtime and its preparation while nobody is counted, the attachment always. It is then one more of those counted; a refused one leaves the shared state as it was |
| Session.CloseSteps | hayaku_cpp/src/application/HayakuSession.cpp:98-131 | After any run that leaves the mutex free, a close of an open session that runs on its own takes this session out of the shared state and nothing else: one session and one user less, and with the last session the data runtime, with the last user the process runtime |
| Session.CloseUndoesOpen | hayaku_cpp/src/application/HayakuSession.cpp:41-131 | So opening a session and closing it gives the shared state back as it was |
| Session.NothingIsLeft | hayaku_cpp/src/application/HayakuSession.cpp:98-131 | When all calls have returned and all sessions are closed, both runtimes are gone and all counts are zero |
| Session.RuntimeNeedsProcess | hayaku_cpp/src/application/GlobalInitializer.cpp:124-143 | At every step, a data runtime exists only while the process runtime is up |
| KLineIndex.BarsSumUpQuotes | hayaku_cpp/src/data/Stock.cpp:1261-1338 | After any sequence of realtime updates the bars are in strict date order, one for each date quoted in time, with the first open, the extremes and the last close, amount and count of its quotes |
| KLineIndex.UpdatesKeepOrder | hayaku_cpp/src/data/Stock.cpp:1261-1338 | Updates of an ordered buffer keep it in strict date order |
| KLineIndex.StockBuffer.RealtimeUpdate | hayaku_cpp/src/data/Stock.cpp:1261-1338 | The buffer is changed by exactly the specified update and stays in strict date order |
| KLineIndex.StockBuffer.Search | hayaku_cpp/src/data/Stock.cpp:945-968 | The search with two early exits finds the lower bound from any start; no unsigned index wraps and the result is always assigned |
| KLineIndex.StockBuffer.IndexRangeByDate | hayaku_cpp/src/data/Stock.cpp:934-1002 | A date query finds an index range that holds exactly the records in [start, end), and none exactly when there is none |
| KLineIndex.StockBuffer.IndexRangeByIndex | hayaku_cpp/src/data/Stock.cpp:881-932 | An index query finds exactly the records between the two indices, negative ones counted from the end |
| KLineIndex.StockBuffer.RecordsByDate | hayaku_cpp/src/data/Stock.cpp:1087-1102 | The records of a date query are those of the buffer in [start, end), in order |
| KLineIndex.StockBuffer.MarketValue | hayaku_cpp/src/data/Stock.cpp:684-751 | Nothing for a null security and for one delisted before the date; else the close of the newest record not later than the date, before all records that of the newest of all, and 0 for an empty buffer |
| KLineIndex.KDataSharedBuffer.GetPos | hayaku_cpp/src/data/KDataSharedBufferImp.cpp:32-63 | The search with early exits over the shared window answers a position exactly when the bar there has the datetime, and none exactly when no bar has it |
| Filters.KalmanStaysInRange | hayaku_cpp/src/operators/AdaptiveAverageOperators.cpp:451-476 | With q >= 0 and r > 0 the gain lies strictly between 0 and 1 and the estimate in the range of the inputs so far |
| Filters.NoiselessKalmanIsMean | hayaku_cpp/src/operators/AdaptiveAverageOperators.cpp:451-476 | For q = 0 the estimate is (r*x0 + sum) / (r + t) and the error r / (r + t) |
| Filters.KalmanChangesUnits | hayaku_cpp/src/operators/AdaptiveAverageOperators.cpp:451-476 | The filter of rescaled and shifted inputs is the rescaled and shifted filter, with the same error |
| Filters.CalculateKalman | hayaku_cpp/src/operators/AdaptiveAverageOperators.cpp:451-476 | The loop writes the specified estimates from the first valid bar on and leaves the bars before it alone |
| Filters.StepOfKalman | hayaku_cpp/src/operators/AdaptiveAverageOperators.cpp:462-475 | Each estimate is the mean of the last one and the new value, weighed by r and by the predicted error p + q, and the errors obey 1 / p' = 1 / (p + q) + 1 / r, as products |
| Filters.StepOfAverage | hayaku_cpp/src/operators/AdaptiveAverageOperators.cpp:162-194 | Each step of the average goes the fraction (u / ((fast + 1) * (slow + 1)))^2 of the way to the new value, with u linear in the size of the efficiency ratio: 2 * (slow + 1) at ratio one, 2 * (fast + 1) at ratio zero |
| Filters.StepOfOnePeriod | hayaku_cpp/src/operators/AdaptiveAverageOperators.cpp:162-194 | With equal periods p, or at efficiency ratio 1 or -1 with the fast and 0 with the slow period p, (p + 1)^2 times the step is 4 times the way |
| Filters.EfficiencyOfStep | hayaku_cpp/src/operators/AdaptiveAverageOperators.cpp:162-194 | The efficiency ratio is the way over the path: times the volatility it is the change since the first bar, or since n bars ago once the window is full, cut off at 1 and -1, and it is 1 where the volatility is zero |
| Filters.EfficiencyIsRatio | hayaku_cpp/src/operators/AdaptiveAverageOperators.cpp:144-194 | The volatility is never negative and the efficiency ratio between -1 and 1 |
| Filters.AmaStaysInRange | hayaku_cpp/src/operators/AdaptiveAverageOperators.cpp:144-194 | With both periods at least 1 the average stays in the range of the inputs |
| Filters.InRangeExactly | hayaku_cpp/src/operators/AdaptiveAverageOperators.cpp:134-142 | It does so for every input exactly when both periods are at least 1, although the parameter check admits 0 |
| Filters.VolatilityIsPath | hayaku_cpp/src/operators/AdaptiveAverageOperators.cpp:181-194 | What the rolling volatility sums up: the very first step stays in it for good and the oldest step of the window is missing |
| Filters.RollingVolatility | hayaku_cpp/src/operators/AdaptiveAverageOperators.cpp:181-194 | It is the volatility of its window exactly when these two steps are equally long |
| Filters.RollingVolatilityLags | hayaku_cpp/src/operators/AdaptiveAverageOperators.cpp:181-194 | Three values for which it is not |
| Filters.CalculateAma | hayaku_cpp/src/operators/AdaptiveAverageOperators.cpp:144-194 | The two loops write the specified averages and ratios and leave the bars before the first valid one alone; every step goes the way `StepOfAverage` and `EfficiencyOfStep` say |
| Base64.RoundTrip | hayaku_cpp/src/common/Base64.cpp:118-255 | Decoding what was encoded gives the bytes back, for every byte string and both alphabets of sections 4 and 5 of RFC 4648 |
| Base64.LinesRoundTrip | hayaku_cpp/src/common/Base64.cpp:79-110 | Forms in lines of any length decode to the bytes when line breaks are removed; without removal, and for lines of whole quads, they decode exactly when they are a single line |
| Base64.EncodeLines | hayaku_cpp/src/common/Base64.cpp:97-110 | The PEM and MIME encoders give the specified lines, which decode to the bytes when line breaks are removed |
| Base64.UnpaddedRoundTrip | hayaku_cpp/src/common/Base64.cpp:171-255 | Padding left off decodes to the same bytes |
| Base64.EncodedLength | hayaku_cpp/src/common/Base64.cpp:118-168 | Four characters for every three bytes begun |
| Base64.QuadIsNumber | hayaku_cpp/src/common/Base64.cpp:144-163 | A full quad is the 24-bit number of its three bytes, most significant first, in base 64; a short one is that of the bytes filled up with zeros, with padding in place of the groups that hold none of them |
| Base64.BreaksStand | hayaku_cpp/src/common/Base64.cpp:79-96 | Line breaks stand exactly behind every full line |
| Base64.InvalidExactly | hayaku_cpp/src/common/Base64.cpp:171-255 | The decoder fails exactly on strings that end after the first character of a quad or hold a character of neither alphabet, unless that is padding in one of the last two places of a quad or follows padding in the third; the header says illegal characters are passed over |
| Base64.StrangeCharacters | hayaku_cpp/src/common/Base64.cpp:171-255 | `QQ=!` decodes and `QQ!=` fails |
| Base64.Encode | hayaku_cpp/src/common/Base64.cpp:118-168 | The loop over the bytes gives the specified encoding |
| Base64.Decode | hayaku_cpp/src/common/Base64.cpp:171-259 | The loop over the characters, after the removal of line breaks when asked for, gives the specified bytes or the error |
| Base64.InsertLineBreaks | hayaku_cpp/src/common/Base64.cpp:79-96 | The loop that inserts into the string it walks gives the specified lines |

## Left out

- The `cash` field of trade records is modelled for the records of one settlement only (`CashStamps`); every other
  record carries the live cash. Conservation is stated over flows.
- Meters.LogExplainsBook: the stock base and the gain of the long side are left out for runs that withdraw stock,
  because `checkoutStock` books the withdrawal with the wrong sign.
- Funds.ProfitAttribution: excludes withdrawn stock for the same reason.
- Replay.ReplayRebuilds: says nothing of a holding whose first number on record is negative, because C++ leaves it
  undefined what unsigned integer that becomes. The rebuilt value of borrowed shares is not modelled.
- ReplayedQueues.QueuesRebuiltExactly: asks for positive numbers on record, for the same reason.
- ReplayedValue.MarketValueRebuiltExactly: asks for the same, and for prices and units that are not negative.
- Queues.QueuesAreFifo: does not call a queue with a negative number on record first in, first out; the source turns
  away zero only, and what a negative return does is in `NegativeReturn`.
- BorrowValues.CarriedValue: asks for positive numbers on record.
- Shorts.ShortIsBorrowedThroughout: says nothing across `reset` or a clone, which do not carry the short maps.
- The fields stop loss, goal price, total risk, planned price, origin and remark of records and positions, and the
  components of a cost record: only its total moves money.
- Short market value in the replayed funds, which reads the unit through a finished iterator
  (hayaku_cpp/src/execution/ExecutionRuntime.cpp:1779-1791).
- Broker orders and asset fetching, `addPosition`, `addTradeRecord`, `tocsv`, action strings and profit curves.
- Floating-point rounding: reals are exact throughout, including the gain, ratio and price maps.
- PriceAdjustment.ForwardIsMappedBackward: is about prices; volumes and amounts are modelled in the sweeps, but no
  relation between the two series of them is stated. Events that divide by zero are excluded.
- `_recoverForUpDay` (aggregation of adjusted days) and `getOtherFromSelf` (adjusting an adjusted buffer again).
- FileLocks.MutualExclusion: lock files are taken to be never renamed, deleted or opened by other code, as the header
  demands; forked processes and the Windows branch are not modelled. `waitLock` repeats `tryLock`.
- Lock objects, sessions and the weight cache are state machines over values, so that their steps can interleave; object
  lifetimes other than construction, moves and destruction of lock objects are not modelled.
- WeightCache.CallsReadTheDriver: is about the role with eviction enabled and a driver whose data does not change; the
  standalone role reads a cache that is never released.
- Session.Lifetimes: the strategy, scheduler and preload threads a close waits for are not modelled.
- KLineIndex.KDataSharedBuffer.GetPos: the window is searched as it is at the time of the call; that a later realtime
  update can move the stock's vector under it is not modelled.
- KLineIndex.StockBuffer.MarketValue: the lookups of a security without a buffer are not modelled.
- `DataRuntime::loadAllStockWeights` is the materialized start of the weight cache; a reload during reads is not
  modelled.
- The incremental form of the adaptive moving average, which starts its window from another term than the full one.
- Serialization, logging, plugins, drivers, IPC, HDF5 and SQLite storage, Python bindings and scripts, and the reports.
