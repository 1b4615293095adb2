# FIFO cost basis for a CoinTracking double-entry ledger

`fifo_ct.py` reads a CoinTracking "Entrada doble" export, where every trade
is split into one row per currency leg that share a trade id. It computes,
for each sale or swap of a crypto-asset, the value received, the FIFO cost
of the lots it consumes, the fees of its trade and the gain. It then sums
these per asset and counter-asset class ("F" when euros are a leg of the
trade, "N" otherwise).

This project models the engine at the heart of the script: the loop over the
ledger rows with its per-asset lot inventory, the FIFO consume loop, the
trade linkage (fees and counter class), the disposal record and the summary
table. It proves what the engine promises about them.

Modules, one per part of the engine:

- `Classify` (`Classify.dfy`) holds the row classifiers `es_compra`, `es_venta`
  and `es_fee`. Each is an anchored prefix test that ignores case (`IsBuy`,
  `IsSell`, `IsFee` over `StartsWith`).
- `Ledger` (`Ledger.dfy`) holds the ledger row, the trade id (an empty id is
  `Missing` and matches nothing, as NaN does), the ticker in upper case, the
  calendar day and the disposal record.
- `Linker` (`Linker.dfy`) holds the fee sum and the counter class of a trade,
  computed over every row handed to the engine.
- `Lots` (`Lots.dfy`) holds lots, the inventory type
  (`map<string, seq<Lot>>`) and `Drain`, the function that specifies the FIFO
  consume loop. Its lemmas cover conservation, FIFO order and the split of a
  lot.
- `Engine` (`Engine.dfy`) holds `Step`/`Run`, which specify the pass over the
  rows as a fold. It also holds the class `Inventory`, whose `Push` and
  `Consume` update the lot queues in place (`Consume` runs the `while` loop),
  plus `Dispose` and `FifoCt`, the row loop, which are proved equal to the
  fold. Run-level properties and a worked ledger example follow.
- `Summary` (`Summary.dfy`) holds the group-by of the records on
  (asset, class), with the four euro fields summed and the groups sorted. It
  is modelled as insertion into a list kept sorted by key.

Quantities and euro amounts are exact `real`s. The loop's tolerance `1e-12`
is the constant `Lots.Eps`.

## Model

| member | source | states |
|---|---|---|
| Classify.IsBuy | fifo_ct.py:66-67 | `es_compra`: the label starts with "compra" or "buy", ignoring case; its reading is proved by `AnchoredAtStart` |
| Classify.IsSell | fifo_ct.py:70-71 | `es_venta`: the label starts with "venta" or "sell", ignoring case; its reading is proved by `AnchoredAtStart` |
| Classify.IsFee | fifo_ct.py:74-75 | `es_fee`: the label starts with "comisi" or "fee", ignoring case; its reading is proved by `AnchoredAtStart` |
| Classify.StartsWithIff | fifo_ct.py:66-75 | the prefix test holds exactly when the label is at least as long as the keyword and its first characters match the keyword's letters, ignoring case |
| Classify.StartsWithExtends | fifo_ct.py:66-75 | the match is anchored at the start: a label that matches still matches whatever follows the keyword |
| Classify.StartsWithIgnoresCase | fifo_ct.py:66-75 | two labels equal up to case match the same keywords |
| Classify.ClassifiersIgnoreCase | fifo_ct.py:66-75 | `es_compra`, `es_venta` and `es_fee` give the same verdict on labels equal up to case |
| Classify.StartsWithFolded | fifo_ct.py:66-75 | the prefix test holds exactly when the label's first characters, with case ignored, spell the keyword |
| Classify.AnchoredAtStart | fifo_ct.py:66-75 | a label is an acquisition, a disposal or a fee exactly when its first characters, with case ignored, spell one of that kind's keywords; so a keyword in mid-label, or after a doubled first letter, does not count |
| Classify.KindsExclusive | fifo_ct.py:66-75 | no label is of two kinds, so asking `es_compra` before `es_venta` hides nothing |
| Classify.BuyLabels | fifo_ct.py:66-67 | "Compra" and "BUY" are acquisitions |
| Classify.SellLabels | fifo_ct.py:70-71 | "Venta" and "sell" are disposals |
| Classify.FeeLabels | fifo_ct.py:74-75 | "Comisión" and "Fee" are fees |
| Classify.MidLabelExamples | fifo_ct.py:66-75 | "Trade sell", "Sell" and "Income" are not a disposal, an acquisition and a fee respectively |
| Classify.DoubledLetterExamples | fifo_ct.py:66-75 | "ssell", "bbuy" and "ffee" are not a disposal, an acquisition and a fee respectively |
| Ledger.Upper | fifo_ct.py:114 | the upper-cased ticker has the same length, each lower-case ASCII letter becomes its capital, no lower-case ASCII letter is left, and every other character is kept |
| Ledger.UpperIdempotent | fifo_ct.py:114 | upper-casing an upper-cased ticker changes nothing |
| Ledger.Day | fifo_ct.py:158 | the day of a timestamp is the one whose 86400 seconds contain it, before the epoch too |
| Linker.FeeFor | fifo_ct.py:129-131 | the fee of a trade is never negative |
| Linker.FeeZeroIff | fifo_ct.py:129-131 | the fee is zero exactly when every fee leg of the trade has zero euro value (in particular when it has none) |
| Linker.FeeForAppend | fifo_ct.py:129-131 | the fee over two parts of the ledger is the sum of the fees over each |
| Linker.FeeForMissing | fifo_ct.py:129-131 | a row without trade id links to no fee |
| Linker.HasEuroLeg | fifo_ct.py:147-154 | some row of the trade has ticker EUR in upper case; the exact reading is proved by `ClassOfIff` |
| Linker.ClassOf | fifo_ct.py:147-154 | `clave`: "F" when the trade has a euro leg, "N" otherwise; the exact reading is proved by `ClassOfIff` |
| Linker.ClassOfIff | fifo_ct.py:147-154 | the class is "F" exactly when some row of the trade has ticker EUR in upper case |
| Linker.MissingIdIsNonFiat | fifo_ct.py:147-154 | a row without trade id is classed "N" |
| Linker.TwoFeeLegs | fifo_ct.py:129-131 | two fee legs of a trade (3 and -2 EUR) give 5; the fee leg of another trade and the sale leg add nothing |
| Lots.Drain | fifo_ct.py:133-145 | the consume loop never adds lots to the queue |
| Lots.DrainConservesCost | fifo_ct.py:133-145 | cost matched plus cost still queued equals the queue's cost before the disposal |
| Lots.DrainConservesQty | fifo_ct.py:133-145 | the quantity taken from the queue (the need minus the final `salida`) plus the quantity still queued equals what the queue held before |
| Lots.DrainStops | fifo_ct.py:134 | the loop stops only when `salida` is at most `1e-12` or the queue is empty |
| Lots.DrainOversold | fifo_ct.py:134-145 | when the queue runs out, every lot was matched whole and the unmatched remainder adds no cost |
| Lots.SplitLeavesResidue | fifo_ct.py:140-145 | a split leaves a positive residue smaller than the lot, whose cost is in proportion to its quantity |
| Lots.DrainSplit | fifo_ct.py:140-145 | a front lot larger than the need is split: `salida` becomes 0, matched cost plus residual cost is the lot's cost, the residue is `lot_qty - salida`, the lots behind are untouched |
| Lots.DrainTakesFromFront | fifo_ct.py:134-145 | what remains is the queue minus its oldest lots, or that with the oldest remaining lot replaced by the residue of a split |
| Lots.DrainCostIsOldestLots | fifo_ct.py:134-145 | the cost matched is that of the oldest lots consumed whole plus the consumed part of the next one |
| Lots.DrainKeepsNonNegCosts | fifo_ct.py:134-145 | lots of non-negative cost yield a non-negative matched cost and leave lots of non-negative cost |
| Lots.OldestLotFirst | fifo_ct.py:134-139 | with lots (1, 100) then (1, 200), disposing 1 costs 100 and leaves (1, 200) intact |
| Lots.PartialLotSplit | fifo_ct.py:140-145 | one lot (2, 100); disposing 1 costs 50 and leaves (1, 50) |
| Lots.WithinToleranceDrainsLot | fifo_ct.py:136-139 | a lot of 1.0000000000001 against a need of 1 is within the tolerance and is consumed whole |
| Lots.SplitAcrossTwoLots | fifo_ct.py:134-145 | lots (1, 100) and (1, 300); disposing 1.5 costs 250 and leaves (0.5, 150) |
| Engine.Record | fifo_ct.py:156-167 | the record of a disposal row; `RunRecords` proves what each field but the cost holds, and `RunRecordCosts` proves the cost is the one `Drain` matches |
| Engine.Step | fifo_ct.py:114-167 | one pass of the row loop; `StepQueue`, `RunRecords`, `RunSkipsIgnored` and `RunSkipsOthers` prove what it does |
| Engine.Run | fifo_ct.py:110-167 | the row loop as a fold from no queues and no records; `FifoCt` is proved equal to it |
| Engine.StepQueue | fifo_ct.py:113-145 | a row changes only its own ticker's queue |
| Engine.Inventory.constructor | fifo_ct.py:110 | the inventory starts with no queues |
| Engine.Inventory.Push | fifo_ct.py:121-122 | an acquisition appends a lot at the back of its ticker's queue; other queues and the earlier lots are unchanged |
| Engine.Inventory.Consume | fifo_ct.py:133-145 | the consume loop returns the cost and remainder `Drain` specifies; only this ticker's queue changes, and only when `salida` exceeds `1e-12` |
| Engine.Dispose | fifo_ct.py:125-167 | a disposal consumes its ticker's lots as `Drain` specifies and returns its record |
| Engine.FifoCt | fifo_ct.py:110-183 | the row loop returns the records of the fold `Run` and their summary |
| Engine.RunRecords | fifo_ct.py:156-167 | one record per disposal row, in row order, each with the row's day and upper-cased asset, negated quantity and value, its trade's fee and class, and gain = value - cost - fee |
| Engine.RunRecordCosts | fifo_ct.py:133-162 | the k-th record's cost is the cost `Drain` matches for the k-th disposal row against its ticker's lots as the rows before it left them |
| Engine.RunConservesCost | fifo_ct.py:121-145 | for each asset, the cost matched by its records plus the cost of its open lots equals the cost of its acquisitions |
| Engine.RunKeepsNonNegLots | fifo_ct.py:121-145 | when no acquisition of an asset has a negative cost, no open lot of that asset has one |
| Engine.MatchedWithinAcquired | fifo_ct.py:121-145 | when no acquisition of an asset has a negative cost, the cost matched for it never exceeds what was paid for it |
| Engine.RunSkipsIgnored | fifo_ct.py:114-116 | rows of an ignored ticker change neither the inventory nor the records |
| Engine.RunSkipsOthers | fifo_ct.py:113-125 | fee legs and other rows that are neither acquisitions nor disposals change neither the inventory nor the records |
| Engine.FirstBuyStep | fifo_ct.py:114-122 | a purchase of "btc" opens the queue of "BTC" |
| Engine.SecondBuyStep | fifo_ct.py:121-122 | a second purchase goes behind the first |
| Engine.SaleLedgerSecondBuy | fifo_ct.py:113-122 | after the two purchases of the example ledger the BTC queue is (1, 100), (1, 300) |
| Engine.SaleStep | fifo_ct.py:125-167 | selling 1.5 BTC against those lots matches 250 and leaves (0.5, 150) |
| Engine.SaleLedgerSale | fifo_ct.py:113-167 | after the sale of the example ledger there is one record, with cost 250 |
| Engine.SaleLedgerEuroLegs | fifo_ct.py:114-116 | the EUR legs of the sale are skipped |
| Engine.SaleLedgerFee | fifo_ct.py:129-131 | the sale's fee is its 5 EUR fee leg; its EUR purchase leg and sale leg add nothing |
| Engine.SaleLedgerClass | fifo_ct.py:147-154 | the sale's trade has a EUR leg, so its class is "F" |
| Engine.SaleAcrossTwoLots | fifo_ct.py:110-167 | the example ledger yields the record (day 0, BTC, 1.5, 450, 250, 5, 195, "F") and leaves 0.5 BTC at a cost of 150 |
| Summary.StrLtIrreflexive | fifo_ct.py:181 | no asset name sorts before itself |
| Summary.StrLtTransitive | fifo_ct.py:181 | the order on asset names is transitive |
| Summary.StrLtTotal | fifo_ct.py:181 | any two distinct asset names are ordered |
| Summary.KeyLtIsStrictTotal | fifo_ct.py:181 | ordering by (asset, class), the classes by their codes "F" and "N", is a strict total order |
| Summary.Insert | fifo_ct.py:173-182 | adds one record to the table kept sorted by (asset, class); `InsertSorted`, `InsertFind` and `InsertTotals` prove what it does |
| Summary.Summarize | fifo_ct.py:173-182 | the `groupby`/`agg`/`sort_values` of the records as a fold of `Insert`; `SummarizeSorted` and `SummarizeFind` prove what it gives |
| Summary.InsertSorted | fifo_ct.py:173-182 | adding a record keeps the table sorted, and adds that record's key to the table's keys |
| Summary.InsertFind | fifo_ct.py:173-182 | adding a record adds its amounts to its own group only |
| Summary.InsertTotals | fifo_ct.py:173-182 | adding a record adds its amounts to the table's grand totals |
| Summary.SummarizeSorted | fifo_ct.py:173-182 | the summary is sorted by (asset, class), so it has one row per group, and its groups are exactly those of the records |
| Summary.SummarizeFind | fifo_ct.py:173-182 | looked up by any key, the summary gives the sums of that group |
| Summary.SummaryRowsAreGroupSums | fifo_ct.py:173-180 | each summary row holds the four fields summed over the records of its group |
| Summary.SummaryKeepsTotals | fifo_ct.py:173-182 | the summary rows add up to the totals of all records |

## Left out

- Reading the CSV and detecting its delimiter (fifo_ct.py:89-90) are I/O through pandas.
- Header normalisation and the exit on missing columns (fifo_ct.py:26-60) are a pandas rename plus a process exit. The model starts from rows with the six fields.
- Date parsing, the fiscal-year filter, the `eur` text cleanup and the sort by date (fifo_ct.py:94-103) are pandas data preparation. `Engine.FifoCt` instead requires rows already in date order (`Chronological`).
- The `--crypto` filter (fifo_ct.py:106-107) is left out. The linkage functions take whatever rows they are given, and `FifoCt` passes its own rows. With the filter on, those rows hold no EUR or fee legs of other tickers.
- Engine.RunRecords: the record's four euro fields are the unrounded values. The source rounds them to two decimals (fifo_ct.py:161-164).
- Engine.RunRecordCosts: the record's cost is the unrounded matched cost. The source rounds it to two decimals (fifo_ct.py:162).
- Summary.SummaryRowsAreGroupSums: the model sums the unrounded record fields. The source sums the rounded ones.
- Floating-point drift is not modelled. Amounts are exact reals, and the `1e-12` tolerance is the exact constant `Lots.Eps`.
- Tickers are upper-cased on ASCII letters only. Python's `str.upper` also maps other Unicode letters, some to several characters.
- The operation label in `Classify` ignores case for A-Z and for the four non-ASCII letters that match an ASCII letter when case is ignored. No other Unicode case folding is modelled.
- Timestamps are seconds since the epoch, and `.date()` is the floor of that divided by 86400. Time zones are not modelled.
- Trade ids are strings, and an empty id (`Missing`) matches no row, not even itself, as NaN does.
- The pandas DataFrame, the `groupby`/`agg` machinery and the empty-result shortcut (fifo_ct.py:169-171) are replaced by a fold over the records. That fold gives an empty summary for no records, as the shortcut does.
- The list of lots is updated in place through a local reference and stored back under its ticker when the loop ends. The source mutates the same list object through `inventario[cur]`. No other code observes the map while the loop runs.
- The CLI, console output and the two output CSV files (fifo_ct.py:189-234) are I/O and argument handling. The ignore set arrives already upper-cased, as `main` builds it.
