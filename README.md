# SET50 Futures mini trader dashboard — a Dafny model of its analytics

`set50.test7.py` is a single Streamlit page that shows a market snapshot for one of three SET50
futures contracts and derives a few figures from it. This project models those figures as plain
Dafny definitions and proves their properties. The page's widgets and charts are not modelled.

- **Snapshot lookup** (`Snapshots`): the mock table `get_mock_contract_data`. The contracts
  S50Z25, S50H26 and S50M26 each give a price, a percentage change, bid and offer volumes and four
  trade ticks. Any other symbol fails.
- **Trade parsing** (`Clock`, `Trades`): `parse_trades` works through an array of trade records and
  attaches the parsed `HH:MM` time to each one in place. If a timestamp does not parse, it stops at
  that record, as strptime's exception does.
- **Trade analytics** (`Volumes`, `Periods`, `Vwap`): buy, sell and net volume by trade type; the four
  hour buckets of `summarize_periods`; the volume-weighted average price of `compute_vwap`.
- **Liquidity** (`Liquidity`): the imbalance, the offer/(bid + 1) ratio and the three-way sentiment.
- **Alerts** (`Alerts`): the five-way `if`/`elif` chain, checked against a decision table where the
  first matching row wins.
- **Fibonacci levels** (`Levels`): the six named levels between the swing high and the swing low.
- **The page** (`Dashboard`): one refresh. It looks up the contract, parses the trades into an array
  and computes every panel's figures. `Fixtures` works the analytics out on the S50Z25 data.

Prices and thresholds are `real` and volumes are `nat`. The trade type stays a string, so a record
whose type is neither "Aggressive Buy" nor "Aggressive Sell" counts toward neither total.

Where the code and its own labels disagree, the model follows the code. The `mid` bucket ends
before hour 15 and `late` is hour 15 alone (lines 71-72), although the panels are labelled
"10:00–15:30" and "15:30–16:00" (lines 235-236). So a 15:10 trade counts as late
(`Periods.FifteenTenIsLate`).

## Model

| member | source | states |
|---|---|---|
| `Clock.ParseClock` | set50.test7.py:60 | a parsed time is well shaped, has hour < 24 and minute < 60, and every well-shaped in-range text parses |
| `Clock.FormatThenParse` | set50.test7.py:60 | every time of day is read back from its own `HH:MM` text |
| `Clock.ParseThenFormat` | set50.test7.py:60 | a timestamp that parses is exactly the text of the time it yields |
| `Clock.ParseInjective` | set50.test7.py:60 | two timestamps that parse to the same time are the same text |
| `Trades.Attach` | set50.test7.py:60 | attaching `dt` keeps timestamp, price, volume and type, and the attached time is the timestamp's |
| `Trades.FirstBadTimestamp` | set50.test7.py:59-60 | none exactly when every timestamp parses; otherwise the first index whose timestamp fails, with every earlier one parsing |
| `Trades.AttachAll` | set50.test7.py:58-61 | the parsed list has the same length and order, with every record stamped by its own timestamp |
| `Trades.ParseTrades` | set50.test7.py:58-61 | in place over the array: on success every record has its time attached. On failure it returns the first bad index; records before it are stamped and the rest are untouched |
| `Trades.Hour` | set50.test7.py:70-73 | the hour the masks read is below 24 |
| `Volumes.TotalVolume` | set50.test7.py:85 | `volumes.sum()`: the sum of every trade's volume, whatever its type (the VWAP's denominator) |
| `Volumes.NoVolumeIffAllZero` | set50.test7.py:85 | the total volume is zero exactly when every trade has zero volume |
| `Volumes.VolumeOf` | set50.test7.py:207-208 | a per-type volume never exceeds the total volume |
| `Volumes.Totals` | set50.test7.py:207-209 | net = buy − sell, and buy + sell is at most the total volume |
| `Volumes.TotalsOfNothing` | set50.test7.py:207-209 | an empty list gives (0, 0, 0) |
| `Volumes.KindPartition` | set50.test7.py:207-208 | buy + sell + volume of other types = total volume: each trade counts toward exactly one of them |
| `Volumes.TwoSidedTotals` | set50.test7.py:207-208 | when every type is buy or sell, buy + sell is the total volume |
| `Volumes.VolumeOfAppend` | set50.test7.py:66-67 | the per-type sum of two lists joined is the sum of their sums |
| `Volumes.VolumeOfPermutation` | set50.test7.py:207-208 | per-type sums do not depend on the order of the trades |
| `Volumes.TotalsPermutation` | set50.test7.py:207-209 | reordering the trades leaves buy, sell and net unchanged |
| `Periods.InPeriod` | set50.test7.py:70-73 | the four hour masks: early < 10, 10 ≤ mid < 15, 15 ≤ late < 16, after ≥ 16 |
| `Periods.InBucket` | set50.test7.py:70-73 | a record is selected by a mask when it carries a parsed time whose hour the mask accepts |
| `Periods.PeriodOf` | set50.test7.py:70-73 | the four hour masks are disjoint and cover every hour: each hour has exactly one bucket |
| `Periods.ExactlyOneBucket` | set50.test7.py:70-73 | a parsed trade is in bucket p exactly when p is the bucket of its hour |
| `Periods.Bucket` | set50.test7.py:66-67 | a bucket is no longer than the list |
| `Periods.BucketMembership` | set50.test7.py:66-67 | a bucket holds exactly the records of the list whose hour its mask selects |
| `Periods.Summary` | set50.test7.py:65-68 | `summary(mask)`: the buy and sell volume of the bucket's records, and net = buy − sell |
| `Periods.SummarizePeriods` | set50.test7.py:64-80 | every bucket's triple satisfies net = buy − sell |
| `Periods.BucketsPartition` | set50.test7.py:70-80 | the four buckets together hold every trade exactly once (as multisets) |
| `Periods.PeriodTotalsAddUp` | set50.test7.py:64-80 | the buckets' buy, sell and net add up to the page's overall buy, sell and net |
| `Periods.SummariesOfNothing` | set50.test7.py:238-242 | with no trades every bucket is (0, 0, 0), the figures the page shows when it skips the call |
| `Periods.FifteenTenIsLate` | set50.test7.py:71-72 | a trade at 15:10 is in `late`, not in `mid` |
| `Vwap.Notional` | set50.test7.py:85 | `(prices * volumes).sum()`: the sum of price × volume over every trade (the VWAP's numerator) |
| `Vwap.ComputeVwap` | set50.test7.py:83-87 | defined exactly when the total volume is positive, and then VWAP × total volume = Σ price·volume |
| `Vwap.NotionalBounds` | set50.test7.py:85 | with prices in [lo, hi], Σ price·volume lies between lo and hi times the total volume |
| `Vwap.VwapWithinPrices` | set50.test7.py:83-87 | with prices in [lo, hi] and positive volume, the VWAP lies in [lo, hi] |
| `Vwap.VwapBetweenMinAndMax` | set50.test7.py:83-87 | with positive volume the VWAP lies between the lowest and highest trade price |
| `Vwap.VwapOfOneTrade` | set50.test7.py:83-87 | the VWAP of a single trade is its price |
| `Vwap.NotionalPermutation` | set50.test7.py:85 | Σ price·volume and Σ volume do not depend on the order of the trades |
| `Vwap.VwapPermutation` | set50.test7.py:83-87 | the VWAP does not depend on the order of the trades |
| `Vwap.MinPrice` | set50.test7.py:83-87 | the lowest trade price: a price of the list, and no price is below it |
| `Vwap.MaxPrice` | set50.test7.py:83-87 | the highest trade price: a price of the list, and no price is above it |
| `Liquidity.Imbalance` | set50.test7.py:156 | the imbalance is positive exactly when the offer exceeds the bid |
| `Liquidity.BookRatio` | set50.test7.py:157 | the ratio is non-negative, at most the offer, and times (bid + 1) gives the offer: the denominator is never zero |
| `Liquidity.SentimentOf` | set50.test7.py:158 | "Bearish Pressure" iff offer > bid + 1000, "Bullish" iff bid > offer + 1000 |
| `Liquidity.Label` | set50.test7.py:158 | the texts "Bearish Pressure", "Bullish" and "Neutral" of the three sentiments |
| `Liquidity.LabelsDistinct` | set50.test7.py:158 | different sentiments have different labels, so the shown text identifies the sentiment |
| `Liquidity.NeutralWithinBand` | set50.test7.py:156-158 | "Neutral" iff the imbalance lies within [−1000, 1000] |
| `Liquidity.SentimentMirror` | set50.test7.py:158 | swapping bid and offer swaps bearish and bullish and keeps neutral |
| `Liquidity.SentimentMonotoneInOffer` | set50.test7.py:158 | more offer volume never makes the sentiment less bearish |
| `Alerts.Retracement` | set50.test7.py:215-217 | `swing_low + (swing_high - swing_low) * fraction`, the price the two rebound rules compare against |
| `Alerts.PanicRule` | set50.test7.py:211 | price below the alert price and sell volume above buy volume × ratio |
| `Alerts.NetFlowRule` | set50.test7.py:213 | net flow below the net-flow threshold |
| `Alerts.WeakeningRule` | set50.test7.py:215 | sell volume below 400 and price above the 0.2 retracement |
| `Alerts.BullishRule` | set50.test7.py:217 | net flow positive and price above the 0.25 retracement |
| `Alerts.FirstMatch` | set50.test7.py:211-220 | the index of the first condition that holds, or the count when none does |
| `Alerts.EvaluateAlert` | set50.test7.py:211-220 | the alert is the outcome of the first row of the decision table whose condition holds |
| `Alerts.PanicTakesPriority` | set50.test7.py:211-212 | panic is chosen whenever its condition holds, whatever the later rules say |
| `Alerts.AlertChosenIff` | set50.test7.py:211-220 | each outcome is chosen iff its condition holds and every earlier one fails; stable iff all four fail |
| `Alerts.PanicExample` | set50.test7.py:211-212 | price 814 < 820 with 500 sold > 200 × 2 bought is a panic |
| `Levels.FibonacciLevels` | set50.test7.py:251-258 | six levels in label order, each equal to high − (high − low)·f for f in 0, 0.236, 0.382, 0.5, 0.618, 1 |
| `Levels.LevelsEndAtSwings` | set50.test7.py:252-257 | "0.0%" is the swing high and "100.0%" the swing low, exactly |
| `Levels.LevelsNonIncreasing` | set50.test7.py:251-258 | when high ≥ low the levels never rise along the list and stay within [low, high] |
| `Levels.LevelsStrictlyDecreasing` | set50.test7.py:251-258 | when high > low the levels strictly fall along the list |
| `Levels.FlatSwing` | set50.test7.py:251-258 | with high = low every level is that price |
| `Levels.DefaultSwingLevels` | set50.test7.py:251-258 | for 830/800 the levels are 830, 822.92, 818.54, 815, 811.46, 800 |
| `Snapshots.MockSnapshot` | set50.test7.py:20-51 | succeeds iff the symbol is one of the three contracts. Each snapshot has four parsable ticks with positive volume and a buy or sell type; any other symbol fails with that symbol |
| `Dashboard.FlowAsWritten` | set50.test7.py:207-209 | the totals as written fail exactly on an empty frame, and otherwise are the buy, sell and net of the frame |
| `Dashboard.EmptyFrameFlow` | set50.test7.py:207-209 | on no trades the as-written totals fail, while the intended totals are (0, 0, 0) |
| `Dashboard.PageView` | set50.test7.py:120-258 | the page's figures for a parsable snapshot: the flow is the snapshot's buy/sell/net; VWAP is present iff there is volume and then lies between min and max price; periods are absent iff no trades, and their buckets add up to the flow |
| `Dashboard.Render` | set50.test7.py:120-258 | parsing in place fails exactly at the first unparsable timestamp. Otherwise the view is `PageView`: imbalance, ratio, sentiment, VWAP (`ComputeVwap` of the stamped trades), totals, alert, periods and levels of the parsed trades |
| `Dashboard.AttachedTotals` | set50.test7.py:59-60 | attaching times leaves buy, sell and net unchanged |
| `Dashboard.AttachedVolumes` | set50.test7.py:59-60 | attaching times leaves total volume and the lowest and highest price unchanged |
| `Dashboard.Refresh` | set50.test7.py:113-126 | a refresh succeeds iff the contract is in the table, and then shows `PageView` of that contract's snapshot: its alert and totals come from its trades, and the period panels are always filled |
| `Fixtures.S50Z25Totals` | set50.test7.py:29-34 | S50Z25 gives buy 600, sell 800, net −200 |
| `Fixtures.S50Z25Periods` | set50.test7.py:29-34 | S50Z25's buckets are early (0, 300, −300), mid (200, 0, 200), late (0, 500, −500), after (400, 0, 400) |
| `Fixtures.S50Z25AlertIsStable` | set50.test7.py:211-220 | S50Z25 at its table price with its table trades and the sidebar defaults is "Market Stable" |
| `Fixtures.S50Z25PageIsStable` | set50.test7.py:211-220 | the page view of S50Z25 under the sidebar defaults shows "Market Stable" |
| `Fixtures.S50Z25Vwap` | set50.test7.py:29-34 | S50Z25's VWAP is 11401/14 (1,140,100 over 1,400) |
| `Fixtures.FixtureSentiments` | set50.test7.py:23-25 | every contract of the table has a "Bearish Pressure" book, on the page view too |

## Left out

- Rendering: titles, columns, metrics, markdown, spinner, captions and the placeholder news and calendar panels (lines 94-108, 132-146, 160-171, 277-295). These are UI only.
- Plotly figures, including the marker-size scaling on line 193. That is charting-library code.
- Auto-refresh (lines 8-12). It is scheduling done by an optional package.
- The "live provider" branch (lines 114-118). It calls the same mock table, so `Dashboard.Refresh` has one path.
- The hard-coded SET and SET50 index figures (lines 133-138) and the `+`/`%` delta strings (lines 141-144). These are display constants and float formatting.
- IEEE floating point and pandas internals. Prices are exact reals, so results such as 822.92 are exact where the page's floats round.
- Clock.ParseClock: accepts exactly `HH:MM` with two digits on each side. strptime's `%H:%M` also accepts single-digit fields such as "9:45", and that leniency is not modelled.
- Clock.ParseClock: drops the 1900-01-01 date part of strptime's result, because only the hour is read.
- Vwap.ComputeVwap: returns `None` for a list with zero total volume. pandas would divide to inf or nan there instead of raising. The page never calls it on an empty frame, and the mock data has only positive volumes.
- Trades.ParseTrades: the Python list holds shared dictionaries that are mutated in place. The model holds values in an array. The table builds fresh records on every call, so no one else could observe the difference.
- Dashboard.Render: follows the intended page on an empty trade list (zero totals); the page as written stops there with a KeyError at line 207, which `Dashboard.FlowAsWritten` models (see Findings).
- The sidebar's bounds and steps (ratio slider 1.0-5.0, line 100) are not enforced on `Alerts.Settings`. No proved property depends on them.
- The `change` field is carried into the view, but its formatting is not modelled.

## Findings

| source | as written | input that shows it | evidently intended | confidence | as-written member | corrected member |
|---|---|---|---|---|---|---|
| set50.test7.py:207-209 | the buy and sell sums read the `type` column of the frame. A frame built from an empty trade list has no columns, so the lookup raises KeyError and the page stops | a snapshot whose trade list is empty, e.g. from a real provider before the first tick. The mock table itself always has four trades | buy = sell = net = 0. The page guards the VWAP (line 174) and the period panels (line 231) with `.empty` for exactly this case | medium; not executed | `Dashboard.FlowAsWritten`, `Dashboard.EmptyFrameFlow` | `Volumes.Totals`, `Volumes.TotalsOfNothing` |
