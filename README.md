# Price aggregation of the average-auction API, in Dafny

This project models the price-aggregation structures of `src/structs.rs` in
rust-query-api, a facade over the Hypixel auction feed. Two structures are covered.

- **`AvgSum`** is a cumulative accumulator `{ sum: i64, count: i32 }`.
  `update(sum, count)` adds one reporting period's totals into it.
  `get_average()` divides the sum by the count, rounding toward zero.
- **`AvgVec`** holds one item's price samples, split into two channels.
  `auctions` holds ascending-bid Auction sales. `bins` holds fixed-price
  Buy-It-Now sales. Each channel maps a timestamp to an `AvgAh { item_id, price, sales }` sample.
  - `from` and `update` upsert a sample into the channel chosen by `idx`; the last write wins.
  - `get_sales` merges the two channels' sales per timestamp.
  - `get_average(old_method)` reports one price. It computes each channel's
    mean price and total sales. In the new mode, a channel with more than ten
    times the other's sales wins outright. Otherwise, and always in the old
    mode, the lower mean is reported.

Files:

- `wrappers.dfy`: `Option`. `None` stands for a missing value; for an `f64` result, it stands for NaN.
- `map_sums.dfy`: `Total`, the sum of a map's values, proved independent of the
  order in which the map is walked. It also has the insert, remove, replace and bound lemmas the rest needs.
- `structs.dfy`, module `Structs`:
  - `AvgAh` is a datatype.
  - `AvgSum` and `AvgVec` are classes whose methods update their fields in place, as the source does.
  - Specification functions (`Fold`, `CombinedSales`, `Average`) and lemmas state what the source promises.

Modelling choices:

- Prices and sales are `real`, not `f64`/`f32`. Timestamps, sums and counts are unbounded `int`.
- An empty channel's mean is `0.0 / 0.0`, which is NaN in the source. The model
  writes it as `None`, and `Min` follows `f64::min`: a NaN argument loses to a
  number, and the result is NaN only when both arguments are NaN.
- The source iterates `DashMap`s in an unspecified order. The loops here pick
  each next timestamp with `:|`, so they are proved for every visiting order.
  `GetSales` also returns a ghost `order` that names the timestamp behind each value it emits.
- Rust's `/` on integers truncates toward zero, but Dafny's is Euclidean.
  `TruncDiv` builds the truncating division explicitly, and
  `IsTruncatedQuotient` characterises it independently.

Where the intended behaviour and the code differ, the model follows the code:

- An empty store is meant to be an error, but the code has no error path: it
  returns NaN, modelled as `None` (`EmptyStoreReportsNaN`).
- The new mode (`old_method == false`) is meant to return the one non-empty
  channel's mean when the other channel is empty. In the code this holds only
  when that channel's sales are not negative (`OnlyAuctions`, `OnlyBins`). With
  negative sales, the new mode picks the empty channel's NaN mean
  (`NegativeSalesReportNaN` for Buy-It-Now only, `NegativeAuctionSalesReportNaN`
  for Auction only).

## Model

| member | source | states |
|---|---|---|
| Structs.AvgSum.constructor | src/structs.rs:102-105 | the accumulator starts with exactly the given sum and count |
| Structs.AvgSum.Update | src/structs.rs:108-112 | update adds the period's sum to `sum` and its count to `count`, i.e. one step of `Fold` |
| Structs.Merge | src/structs.rs:108-112 | one `update(sum, count)` step on the (sum, count) pair: subtracting the period from the result gives back the old pair |
| Structs.MergeIsCommutativeMonoid | src/structs.rs:108-112 | combining two (sum, count) pairs is commutative and associative, and (0, 0) is its unit |
| Structs.FoldAppend | src/structs.rs:108-112 | updating with `ps ++ qs` equals updating with `ps`, then with `qs` |
| Structs.FoldFromZero | src/structs.rs:108-112 | folding from any starting accumulator equals merging that start with the fold from (0, 0) |
| Structs.FoldSplit | src/structs.rs:108-112 | two partial folds computed separately and then merged give the totals of one fold over all periods |
| Structs.FoldMoveToFront | src/structs.rs:108-112 | moving one period to the front of a sequence of updates does not change the result |
| Structs.FoldPermutation | src/structs.rs:108-112 | updating with the same periods in any order (any permutation) gives the same sum and count |
| Structs.TruncDiv | src/structs.rs:115 | integer division whose result is the truncated quotient: remainder smaller than the divisor in magnitude and with the dividend's sign |
| Structs.TruncatedQuotientUnique | src/structs.rs:115 | the truncated quotient is unique, so `TruncDiv` is the only division meeting that characterisation |
| Structs.TruncDivExamples | src/structs.rs:115 | 7 / 2 = 3, -7 / 2 = -3, 7 / -2 = -3 (rounded toward zero, not down) |
| Structs.AvgSum.GetAverage | src/structs.rs:114-116 | with a non-zero count, the result is sum / count truncated toward zero; a zero count is excluded, as the source panics there |
| Structs.AvgVec.From | src/structs.rs:125-131 | a new store holds exactly one sample, in `auctions` if `idx == 0` and in `bins` otherwise; the other channel is empty |
| Structs.AvgVec.Update | src/structs.rs:133-140 | `idx == 0` sets `auctions[time_t]` and leaves `bins` unchanged; any other `idx` sets `bins[time_t]` and leaves `auctions` unchanged |
| Structs.AvgVec.UpdateTwice | src/structs.rs:135-137 | two upserts at the same channel and timestamp leave one entry there holding the later sample; the channel gains at most one key, and the other channel is unchanged |
| Structs.CombinedSales | src/structs.rs:142-155 | the merged series has exactly one entry per timestamp present in either channel |
| Structs.MergeSales | src/structs.rs:142-152 | inserting every Auction sample, then adding or inserting every Buy-It-Now sample, in any visiting order, yields exactly the merged series `CombinedSales` |
| Structs.CollectValues | src/structs.rs:154 | the collected vector holds each value of the map exactly once (one per key, none twice), so it has the map's size and sums to the map's total |
| Structs.AvgVec.GetSales | src/structs.rs:142-155 | emits one value per distinct timestamp of either channel, none twice; each value is both channels' sales summed where both have the timestamp, else the one channel's sales; the vector's length is the number of distinct timestamps and its sum is the Auction sales plus the Buy-It-Now sales |
| Structs.CombinedSalesStep | src/structs.rs:147-152 | folding in one Buy-It-Now sample changes only that timestamp's merged value (alter if present, insert if not) |
| Structs.CombinedTotalStep | src/structs.rs:147-152 | folding in one Buy-It-Now sample adds exactly its sales to the merged total |
| Structs.CombinedSalesConserves | src/structs.rs:142-155 | the merged series sums to the Auction sales plus the Buy-It-Now sales: no sale is lost or counted twice |
| Structs.CombinedSalesExample | src/structs.rs:147-152 | Auction sales 5 and Buy-It-Now sales 3 at t = 100 merge to 8; a timestamp in one channel only passes through |
| Structs.ChannelTotals | src/structs.rs:158-170 | the accumulation loops yield the sum of the channel's prices and the sum of its sales, whatever the visiting order |
| Structs.Mean | src/structs.rs:172-173 | a mean exists (is not NaN) exactly when the channel has samples, and then mean × count = price sum |
| Structs.Min | src/structs.rs:179 | `f64::min`: NaN only if both are NaN, otherwise one of the arguments, and no larger than any non-NaN argument |
| Structs.Select | src/structs.rs:174-180 | the selection rule returns one of the two means; in the old mode it is `min` of the means; in the new mode, with non-negative Auction sales, Buy-It-Now sales above ten times the Auction sales select the Buy-It-Now mean; a NaN result needs a NaN mean |
| Structs.Average | src/structs.rs:157-181 | what `get_average` reports for two channels: NaN only if a channel is empty, and in the old mode NaN exactly when both channels are empty |
| Structs.AvgVec.GetAverage | src/structs.rs:157-181 | the result is the selection rule applied to each channel's mean price and total sales |
| Structs.OldMethodTakesLowerMean | src/structs.rs:174-179 | with both channels non-empty, the old mode returns the smaller of the two means whatever the sales |
| Structs.NewMethodDominance | src/structs.rs:174-180 | with both channels non-empty, the new mode returns the Auction mean when Auction sales > 10 × Buy-It-Now sales, else the Buy-It-Now mean when Buy-It-Now sales > 10 × Auction sales, else the smaller mean |
| Structs.OnlyAuctions | src/structs.rs:172-180 | with only Auction samples and non-negative sales, both modes return the Auction mean |
| Structs.OnlyBins | src/structs.rs:172-180 | with only Buy-It-Now samples and non-negative sales, both modes return the Buy-It-Now mean |
| Structs.NegativeSalesReportNaN | src/structs.rs:172-177 | with no Auction samples and negative Buy-It-Now sales, the new mode returns the empty channel's NaN mean |
| Structs.NegativeAuctionSalesReportNaN | src/structs.rs:172-176 | with no Buy-It-Now samples and negative Auction sales, the new mode returns the empty channel's NaN mean |
| Structs.EmptyStoreReportsNaN | src/structs.rs:172-179 | with both channels empty, both modes return NaN |
| Structs.AverageIsAChannelMean | src/structs.rs:174-180 | whatever the mode, the reported value is one of the two channel means |
| Structs.MeanWithinPrices | src/structs.rs:172-173 | a non-empty channel's mean lies between the lowest and highest price stored in it |
| Structs.AverageWithinPrices | src/structs.rs:157-181 | when every stored price lies in [lo, hi], a non-NaN reported average does too |
| Structs.DominanceExample | src/structs.rs:157-181 | Auction prices 1,000,000 and 1,100,000 (sales 2 and 1) against Buy-It-Now 900,000 (sales 50): the Auction mean is 1,050,000 and its sales are 3; both modes report 900,000 |

## Left out

- Concurrency: `DashMap` is a sharded concurrent map. Each channel here is a
  plain `map`, updated by one caller at a time. Weakly consistent reads during
  concurrent inserts are not modelled.
- Floating point: prices and sales are `real`, so `f64`/`f32` rounding is not modelled.
  - Summation order cannot change a result here, while in the source it can.
  - NaN appears only as an empty channel's mean. Infinities are not modelled.
- Structs.AvgSum.Update: does not model `i64`/`i32` overflow (a panic in debug
  builds, wrap-around in release), because sums and counts are unbounded integers.
- Structs.AvgSum.GetAverage: does not model the overflow of `i64::MIN / -1`,
  because integers are unbounded.
- `update` and `from` return `Self` by value in the source. Here they mutate the
  object in place, which is the same effect on an owned value.
- `usize` `idx` is a `nat`; only whether it is zero matters.
- The `From<Row>` conversions for `QueryDatabaseItem`, `AverageDatabaseItem`
  and `PetsDatabaseItem` are left out. They map Postgres rows through a foreign library.
- The serialisation-only structs are left out: `Bid`, `PartialAvgAh`, the NBT
  and pets shapes, `Auctions`, `EndedAuctions` and their fields. They hold no logic.
