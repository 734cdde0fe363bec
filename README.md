# Backtest outcome, TDX file repository and TDX record reader

This project models three sequential pieces of a Go technical-analysis
library:

- **The backtest simulator and its commission model** (`strategy/outcome.go`).
  `AStockCommissionFee.Calculate` is a commission with a minimum, plus
  slippage, plus stamp duty on sells. `Outcome`, `Outcome2` and `Outcome1`
  replay paired (price, action) inputs. Each runs over an account it updates
  in place, and emits a normalised return after every step. In the model,
  each simulator is a class whose `Step` method updates its fields. Each
  `Step` is proved against a step function. The drivers `Outcome`,
  `Outcome2` and `Outcome1` are loops, proved against recursive curve
  functions. The buy branch's lot-selection loop is a separate method
  (`LargestAffordableLot` / `SearchDown`). That method is proved to find
  the largest affordable whole lot (`LotsFrom`, `LargestAffordable`).
- **The file-backed asset repository** (`asset/tdx_file_repository.go`).
  `Repository` holds the base directory and the extension. `Assets` is a
  loop over a directory listing, proved against `AssetNames`. `Get`,
  `GetSince` and `LastDate` are sequence functions over the decoded records.
  `Append` always fails. The constructor drops its extension argument, and
  the model keeps that behaviour.
- **The TDX record reader** (`helper/tdx.go`). `Tdx` is a class with the
  captured extension as its field. `Read` sets that field, and
  `ReadFromFile` is the counted record loop, proved against `Decode`.
  A file holds `size / 32` records. The extension selects one of three
  layouts, and an unsupported extension or a failed read ends the stream.

Money is `real`. The fee model and the trade configuration are explicit
parameters, not process-wide variables. The file system is a value (`Disk`):
directory listings, plus files with their bytes, whether `Stat` succeeds,
and the index of the first record whose read fails. A `time.Time` is an
instant plus the day of the month that `Day()` reports.

Two properties one might expect of the simulator do not hold of the code,
and the model follows the code in both:

- **Cash is not always non-negative.** A buy never overdraws, but a sale
  can. `Strategy.CashCanTurnNegative` gives a two-step run: a one-lot buy
  spends the whole balance, then a sale's fee exceeds its proceeds. The run
  ends with negative cash and no shares.
- **The same-day rule is a day-of-month rule.** The comment at
  `strategy/outcome.go:185` says a position cannot be sold on the day it was
  bought. The test at line 186 compares only `Day()`, the day of the month,
  so a sell exactly one month after the buy is refused too
  (`Strategy.SaleAMonthLaterIsRefused`).

## Model

| member | source | states |
|---|---|---|
| Strategy.CommissionFee.Commission | strategy/outcome.go:41-44 | the commission with its floor; `CommissionIsMax` states it is the larger of the minimum and the proportional amount |
| Strategy.CommissionFee.Duty | strategy/outcome.go:47-50 | stamp duty; `StampDutyOnSellsOnly` states that only a sell pays it, `size*price*stampDuty` |
| Strategy.CommissionFee.Calculate | strategy/outcome.go:40-53 | commission plus slippage plus duty; characterised by `CommissionIsMax`, `FeeAtLeastMinimum`, `StampDutyOnSellsOnly` and `DefaultFeeExample` |
| Strategy.CommissionIsMax | strategy/outcome.go:41-44 | the commission is at least the minimum and at least the proportional amount, and equals one of the two |
| Strategy.FeeAtLeastMinimum | strategy/outcome.go:40-53 | with non-negative rates, price and size, the whole fee is never below the minimum commission |
| Strategy.StampDutyOnSellsOnly | strategy/outcome.go:46-52 | a sell's fee exceeds a buy's fee for the same price and size by exactly `size*price*stampDuty`; a hold is charged like a buy |
| Strategy.DefaultFeeExample | strategy/outcome.go:16-21 | under the default rates, 100 shares at 10 cost a fee of 6 to buy and 6.5 to sell |
| Strategy.MaxLots | strategy/outcome.go:157-163 | `floor(balance/price/MinSize)`; `LotWithinBalance` states that the shares of that many lots fit in the balance, and `LargestAffordable` that no buy exceeds it |
| Strategy.Costs | strategy/outcome.go:168-170 | a round's fee and total; `SearchDown` computes exactly these in each round, and `BuyFromFlat` states the debit they give |
| Strategy.Affordable | strategy/outcome.go:170-172 | the loop's exit test, a total within the balance; `SearchStep` ties each round's branch to it |
| Strategy.Lots | strategy/outcome.go:157-183 | the count a buy commits to; `LargestAffordable` states it is the largest affordable count up to `MaxLots`, and `LargestAffordableLot` that the loop finds it |
| Strategy.Lot | strategy/outcome.go:163-174 | the quantity of `k` lots, `k * MinSize`; `LotGuard` and `LotStep` state that the loop's `buyStocks` is always a whole number of lots, and `LotWithinBalance` bounds its price |
| Strategy.LotsFrom | strategy/outcome.go:167-183 | the downward search from `k` lots yields 0 or a count in `1..k` |
| Strategy.LotsFromIsLargest | strategy/outcome.go:167-183 | the count the search yields is affordable, and no count above it, up to its start, is affordable |
| Strategy.LotGuard | strategy/outcome.go:167 | the guard `buyStocks >= MinSize` holds exactly when at least one lot is left |
| Strategy.LotStep | strategy/outcome.go:174 | removing `MinSize` shares leaves exactly one lot fewer |
| Strategy.SearchStep | strategy/outcome.go:168-182 | a round whose cost exceeds the balance hands the search on to one lot fewer; otherwise the search ends at that lot |
| Strategy.LotWithinBalance | strategy/outcome.go:157-163 | any count up to `floor(balance/price/MinSize)` costs at most the balance before fees |
| Strategy.LargestAffordableLot | strategy/outcome.go:157-183 | the loop commits to exactly the lot count `Lots` characterises; a commitment's quantity is that many lots, and its fee and total are those of that quantity, with the total within the balance |
| Strategy.SearchDown | strategy/outcome.go:165-183 | the loop from `top` lots downward returns the count `LotsFrom(top)` and, for a commitment, the fee and total of that quantity, with the total within the balance |
| Strategy.LargestAffordable | strategy/outcome.go:157-183 | a committed count is in `1..floor(balance/price/MinSize)`, is affordable, and its shares alone fit in the balance; every larger count up to that bound is unaffordable; the count is 0 exactly when no count in the range is affordable |
| Strategy.BuyLotOfLoop | strategy/outcome.go:172-182 | the buy transition is the loop's own update: cost off the balance, the quantity onto the shares, one more buy, the fee added |
| Strategy.BuyLot | strategy/outcome.go:172-182 | a committed buy; `BuyLotOfLoop` ties it to the loop's update, and `BuyFromFlat` and `PriceBuyFromFlat` state the exact new account |
| Strategy.Liquidate | strategy/outcome.go:186-193 | a sale of all shares net of its fee; `SellRules` and `RoundTripCostsTheFees` state its effect |
| Strategy.Equity | strategy/outcome.go:195 | the normalised return; `CurveShape` and `PriceCurveShape` state that each output is this value after its step |
| Strategy.SnapshotStep | strategy/outcome.go:150-194 | one step of `Outcome`, which `Backtest.Step` is proved to perform; `BuyWhileHoldingIsNoOp`, `BuyFromFlat` and `SellRules` state each branch |
| Strategy.Start | strategy/outcome.go:142-146 | the configured balance, no shares, zero counters and fees; both constructors are proved to start there, as at lines 86-90 and 142-146 |
| Strategy.LedgerAfter | strategy/outcome.go:149-196 | `helper.Operate` over the `Outcome` closure: the account after `n` steps; `Backtest.Step` and the loop of `Outcome` are proved to keep it |
| Strategy.Curve | strategy/outcome.go:149-196 | the first `n` outputs of `Outcome`; `CurveShape` states one output per pair, the equity after that step |
| Strategy.Backtest.constructor | strategy/outcome.go:142-147 | a run starts with the configured balance, no shares, zero counters and fees, and the zero date `ZeroTime`, the `time.Time{}` of line 147, whose day of the month is 1 |
| Strategy.Backtest.Step | strategy/outcome.go:149-196 | the new account is `SnapshotStep` of the old one, and the output is the normalised equity at the snapshot's close |
| Strategy.Backtest.Purchase | strategy/outcome.go:151-183 | the buy branch changes the account exactly as `SnapshotStep` does on a buy |
| Strategy.Backtest.Sale | strategy/outcome.go:184-193 | the sell branch changes the account exactly as `SnapshotStep` does on a sell |
| Strategy.Outcome | strategy/outcome.go:141-197 | the outputs are `Curve` over all the inputs |
| Strategy.CurveShape | strategy/outcome.go:195 | one output per input pair: output `k` is the normalised equity after step `k+1`, at that step's close |
| Strategy.BuyWhileHoldingIsNoOp | strategy/outcome.go:153-155 | a buy while shares are held leaves the whole account, date included, unchanged |
| Strategy.BuyFromFlat | strategy/outcome.go:172-182 | a committed buy takes exactly `price*qty + fee`, leaves the balance non-negative, sets the shares to `qty`, counts the buy, adds the fee and records the date; with no affordable lot nothing changes |
| Strategy.SellRules | strategy/outcome.go:186-193 | a sell of held shares on another day of the month adds `price*shares - fee`, zeroes the shares, counts the sale and adds the fee; on the same day of the month, or when flat, nothing changes |
| Strategy.RoundTripCostsTheFees | strategy/outcome.go:167-193 | a buy and then a sale at the same price, on different days of the month, return to no shares, poorer by exactly the fees paid |
| Strategy.EndToEndExample | strategy/outcome.go:141-197 | with the defaults, buy/hold/sell at 10 buys nine lots and ends at balance 9967.5 with fees 32.5; the outputs are -0.0014, -0.0014, -0.00325 |
| Strategy.SaleAMonthLaterIsRefused | strategy/outcome.go:186 | a sell 31 days after the buy, on the same day of the month, is refused and the shares are kept |
| Strategy.CashCanTurnNegative | strategy/outcome.go:184-193 | a sale whose fee exceeds its proceeds can leave a flat account with negative cash |
| Strategy.PriceStep | strategy/outcome.go:93-135 | one step of `Outcome2`, which `PriceBacktest.Step` is proved to perform; `PriceStepRules` and `PriceBuyFromFlat` state each branch |
| Strategy.PositionAfter | strategy/outcome.go:92-137 | `helper.Operate` over the `Outcome2` closure: the account after `n` steps; `PriceBacktest.Step` and the loop of `Outcome2` are proved to keep it |
| Strategy.PriceCurve | strategy/outcome.go:92-137 | the first `n` outputs of `Outcome2`; `PriceCurveShape` states one output per pair, the equity after that step |
| Strategy.PriceBacktest.constructor | strategy/outcome.go:86-90 | a run starts with the configured balance, no shares, and zero counters and fees |
| Strategy.PriceBacktest.Step | strategy/outcome.go:92-137 | the new account is `PriceStep` of the old one, and the output is the normalised equity at the step's price |
| Strategy.PriceBacktest.Purchase | strategy/outcome.go:94-125 | the buy branch changes the account exactly as `PriceStep` does on a buy |
| Strategy.PriceBacktest.Sale | strategy/outcome.go:126-134 | the sell branch changes the account exactly as `PriceStep` does on a sell |
| Strategy.Outcome2 | strategy/outcome.go:85-138 | the outputs are `PriceCurve` over all the inputs |
| Strategy.PriceCurveShape | strategy/outcome.go:136 | one output per input pair: output `k` is the normalised equity after step `k+1` |
| Strategy.PriceStepRules | strategy/outcome.go:94-134 | without a date rule, a sell liquidates any held position; a sell when flat and a buy while holding change nothing; a buy from flat never leaves the balance negative |
| Strategy.PriceBuyFromFlat | strategy/outcome.go:96-125 | a buy of `Outcome2` from a flat position that finds an affordable lot takes exactly `price*qty + fee`, leaves the balance non-negative, sets the shares to `qty`, counts the buy and adds the fee; with no affordable lot nothing changes |
| Strategy.AllInStep | strategy/outcome.go:72-78 | one step of `Outcome1`, which `AllInBacktest.Step` is proved to perform; `AllInNeverSplit` states that it never holds cash and shares together |
| Strategy.AllInReturn | strategy/outcome.go:80 | holdings at the price minus the unit stake; `AllInCurveShape` states that each output is this value after its step |
| Strategy.AllInBacktest.constructor | strategy/outcome.go:68-69 | a run starts with a balance of 1 and no shares |
| Strategy.AllInBacktest.Step | strategy/outcome.go:71-81 | the new holding is `AllInStep` of the old one, and the output is holdings at the price, minus 1 |
| Strategy.HoldingAfter | strategy/outcome.go:71-81 | `helper.Operate` over the `Outcome1` closure: the holding after `n` steps; `AllInBacktest.Step` and the loop of `Outcome1` are proved to keep it, and `AllInNeverSplit` that it is never split |
| Strategy.AllInCurve | strategy/outcome.go:71-81 | the first `n` outputs of `Outcome1`; `AllInCurveShape` states one output per pair, the return after that step |
| Strategy.Outcome1 | strategy/outcome.go:67-82 | the outputs are `AllInCurve` over all the inputs |
| Strategy.AllInCurveShape | strategy/outcome.go:80 | one output per input pair: output `k` is `balance + shares*value - 1` after step `k+1` |
| Strategy.AllInNeverSplit | strategy/outcome.go:72-78 | after every step, balance times shares is 0; with positive prices neither is negative |
| Asset.ToSnapshot | asset/tdx_file_repository.go:67-74 | the snapshot carries the bar's time, open, high, low, close and volume |
| Asset.HasSuffix | asset/tdx_file_repository.go:48 | `strings.HasSuffix`; `AssetNamesComplete` states that every listed name passing it is kept |
| Asset.TrimSuffix | asset/tdx_file_repository.go:49 | `strings.TrimSuffix`; `AssetNamesSound` and `ListedNameRoundTrip` state that putting the suffix back gives the listed name |
| Asset.AssetNames | asset/tdx_file_repository.go:45-51 | no more asset names than listed files |
| Asset.AssetNamesSound | asset/tdx_file_repository.go:48-49 | every asset name with the extension put back is a listed file name |
| Asset.AssetNamesComplete | asset/tdx_file_repository.go:48-49 | every listed name ending in the extension appears, stripped, among the asset names |
| Asset.AssetNamesConcat | asset/tdx_file_repository.go:45-51 | names come out in listing order: the names of a concatenated listing are the concatenated names |
| Asset.AssetNamesWithoutSuffix | asset/tdx_file_repository.go:43-49 | with an empty extension every listed name is returned unchanged |
| Base.Join | asset/tdx_file_repository.go:123 | `filepath.Join` of the base directory and the file name, `dir + "/" + file`, without the lexical cleaning noted under "Left out"; `ExtOfJoin` states that it keeps the file name's extension |
| Asset.Repository.FileName | asset/tdx_file_repository.go:122-124 | `getTdxFileName`; `ListedNameRoundTrip` states that a listed name, stripped, resolves back to its own file, and `NewRepositoryReadsListedFiles` that a constructed repository resolves a name to `base/name` |
| Asset.Repository.Assets | asset/tdx_file_repository.go:35-54 | a missing base directory is the read-directory error; otherwise the result is `AssetNames` of the listing |
| Asset.Repository.Get | asset/tdx_file_repository.go:57-83 | an open failure is returned as is; otherwise one snapshot per decoded record, in order, each copied from that record's bar |
| Base.Time.NotBefore | asset/tdx_file_repository.go:93 | `t.Equal(u)` or `t.After(u)`: the instant is at or after the other; `GetSince`'s contract states exactly the snapshots meeting it are kept |
| Asset.Since | asset/tdx_file_repository.go:92-94 | the filter's test, `NotBefore(date)` on the snapshot's date; `GetSince`, `GetSinceAllLater` and `GetSinceKeepsOrder` state what filtering by it keeps and in which order |
| Asset.Repository.GetSince | asset/tdx_file_repository.go:86-97 | the error of `Get`, or exactly the snapshots of `Get` dated at or after the date |
| Asset.Repository.LastDate | asset/tdx_file_repository.go:100-114 | the error of `Get`; "empty asset" when `Get` has no snapshot; otherwise the final snapshot's date |
| Asset.Repository.Append | asset/tdx_file_repository.go:117-119 | always the unsupported-operation error |
| Asset.NewTdxFileRepository | asset/tdx_file_repository.go:28-31 | the repository keeps the base directory and has an empty extension, whatever extension is passed |
| Asset.ListedNameRoundTrip | asset/tdx_file_repository.go:122-124 | a listed name ending in the extension, stripped and resolved, is its own file in the base directory |
| Asset.NewRepositoryReadsListedFiles | asset/tdx_file_repository.go:28-54 | a constructed repository lists every file unchanged, and reading a listed name decodes that file by its own extension |
| Asset.GetSinceAllLater | asset/tdx_file_repository.go:92-94 | when every snapshot is at or after the date, `GetSince` equals `Get` |
| Asset.GetSinceKeepsOrder | asset/tdx_file_repository.go:92-94 | the date filter keeps relative order: it distributes over any split of the snapshots |
| Helper.Ext | helper/tdx.go:30 | the extension is a suffix of the path that starts with '.' and has no other '.' or '/'; it is empty only when every '.' is followed by a '/' |
| Helper.ExtOfJoin | helper/tdx.go:30-31 | joining a directory in front of a plain file name leaves its extension unchanged |
| Helper.FormatOf | helper/tdx.go:64-80 | the extension switch; `SupportedExtensions` states exactly which extensions select which layout, and `UnsupportedYieldsNothing` that any other one ends the stream |
| Helper.Records | helper/tdx.go:62-87 | the first `n` records in file order; `DecodeCount` states their count and byte ranges |
| Helper.Decode | helper/tdx.go:52-87 | what a reader emits for a file; `Tdx.ReadFromFile` is proved to emit it, and `DecodeCount`, `TrailingBytesIgnored` and `ReadErrorTruncates` characterise it |
| Helper.ReadFile | helper/tdx.go:93-100 | the open error, or `Decode` by the path's extension; `Tdx.Read` and `ReadFromTdxFile` are proved to return it |
| Helper.RecordCount | helper/tdx.go:58-59 | `count := size / 32`, whole records only; `ReadLimit` states reading stops by it, and `DecodeCount` and `TrailingBytesIgnored` that a partial trailing record is never read |
| Helper.ReadLimit | helper/tdx.go:59-84 | the loop stops no later than `size / 32` records |
| Helper.RecordAt | helper/tdx.go:81 | each record is 32 bytes |
| Helper.Tdx.constructor | helper/tdx.go:17-22 | a new reader has no extension |
| Helper.Tdx.Read | helper/tdx.go:24-44 | an open failure is returned and leaves the extension; otherwise the extension is captured from the path and the records are those `ReadFile` decodes |
| Helper.Tdx.ReadFromFile | helper/tdx.go:46-91 | the emitted records are `Decode` of the captured extension and the file |
| Helper.ReadFromTdxFile | helper/tdx.go:93-100 | a fresh reader's result is `ReadFile` of the path |
| Helper.DecodeCount | helper/tdx.go:58-87 | when the extension is supported, `Stat` succeeds and no read fails, a file of `k` whole records plus fewer than 32 bytes yields `k` records, the `i`-th from bytes `32i` to `32(i+1)` |
| Helper.TrailingBytesIgnored | helper/tdx.go:58-59 | bytes after the last whole record do not change the output |
| Helper.SupportedExtensions | helper/tdx.go:64-76 | exactly `.day`, `.5`, `.lc5` and `.lc1` select a layout, and `.lc5` and `.lc1` select the same one |
| Helper.UnsupportedYieldsNothing | helper/tdx.go:77-79 | any other extension yields no record |
| Helper.ReadErrorTruncates | helper/tdx.go:52-84 | a failed read at record `k` keeps exactly the records before it; a failed `Stat` yields nothing |
| Helper.Filter | asset/tdx_file_repository.go:92-94 | the kept elements all pass the test and come from the input, and every passing input element is kept |
| Helper.FilterConcat | asset/tdx_file_repository.go:92-94 | filtering distributes over concatenation, so order is kept |
| Helper.FilterKeepsAll | asset/tdx_file_repository.go:92-94 | a test every element passes keeps the whole sequence |
| Helper.Last | asset/tdx_file_repository.go:108 | the final `n` elements, or all of them when there are fewer |

## Left out

- Goroutines, channels, `sync.WaitGroup`, `Waitable` and the goroutine that closes the file after draining: streams are finite sequences. Closing the file is not modelled.
- Strategy.Outcome: requires the two input sequences to have equal length. The Go stream operator that pairs them stops at the shorter one; the model does not cover unequal lengths. The same holds for Strategy.Outcome2 and Strategy.Outcome1.
- `helper.Operate`, `helper.Filter` and `helper.Last` are not part of this model. They are stated by their sequence semantics (the drivers' loops, `Helper.Filter`, `Helper.Last`).
- `float64` rounding, NaN and infinities: money is `real`. A buy at a zero price divides by zero. In Go, a positive balance then makes the lot count and the first round's quantity +Inf. That round's proportional commission is `Inf * 0`, which is NaN, and `NaN < MinCommission` is false, so the fee and the cost are NaN. `NaN > balance` is false too, so the loop commits on its first round: the balance becomes NaN, the shares +Inf, and the loop ends. With a zero balance the lot count is NaN and nothing is bought. Every buy in the model requires a nonzero price, and the configuration requires `MinSize > 0` and a nonzero starting balance. The equity is divided by that balance.
- Strategy.LargestAffordable: its statement that a lot's shares fit in the balance assumes a positive price. For a negative price it says nothing.
- The process-wide `outcomeFeeConfig` and `tradeConfig`, and `SetCommissionFee`: the fee model and the configuration are parameters. Only the `AStockCommissionFee` implementation of `CommissionFee` is modelled.
- The `buyCount` and `sellCount` counters are unbounded integers; Go's `int` overflow is not modelled.
- `os.Open`, `file.Stat`, `binary.Read` and `os.ReadDir` are read from the `Disk` value. A read error is the index of the first record whose read fails. Error messages are reduced to the error kinds.
- `filepath.Join` is `dir + "/" + file`, without lexical cleaning. `filepath.Ext` uses '/' as the only separator, so Windows volume names and backslashes are not modelled.
- The byte layouts of `dayBar`, `fiveBar` and `lcnBar` are not part of this model. A record is its layout tag and its 32 raw bytes. `Get` takes the bar accessors as a function from records to bar values.
- `time.Time` is an instant plus a day of the month. Time zones and calendars are not modelled; `Day()` is whatever the value carries.
- `slog` logging is not modelled.
