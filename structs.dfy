/** The price-aggregation structures of the average-auction API:
    `AvgSum`, a running sum/count used to fold reporting periods together, and
    `AvgVec`, one item's samples from the Auction and Buy-It-Now channels with
    the rule that turns them into one representative average price and one
    merged sales series. */
module Structs {
  import opened Wrappers
  import opened MapSums

  // ---------------------------------------------------------------------------
  // Value types
  // ---------------------------------------------------------------------------

  /** One stored sample (`AvgAh`): the item, its price (an f64) and its sales
      volume (an f32), both as reals. */
  datatype AvgAh = AvgAh(itemId: string, price: real, sales: real)

  /** The `(sum, count)` pair that one reporting period contributes to an
      `AvgSum`, and also the accumulated value of an `AvgSum`. */
  datatype Period = Period(sum: int, count: int)

  // ---------------------------------------------------------------------------
  // AvgSum: integer division as the source language does it
  // ---------------------------------------------------------------------------

  function Abs(x: int): nat { if x < 0 then -x else x }

  /** `q` is `a / b` rounded toward zero: the remainder is smaller than the
      divisor in magnitude and has the sign of the dividend (or is zero). */
  ghost predicate IsTruncatedQuotient(a: int, b: int, q: int) {
    var rem := a - q * b;
    Abs(rem) < Abs(b) && (rem == 0 || (rem < 0 <==> a < 0))
  }

  /** Integer division that truncates toward zero, built from Dafny's
      Euclidean division (whose remainder is never negative). */
  function TruncDiv(a: int, b: int): (q: int)
    requires b != 0
    ensures IsTruncatedQuotient(a, b, q)
  {
    if a >= 0 && b > 0 then a / b
    else if a >= 0 then -(a / -b)
    else if b > 0 then -((-a) / b)
    else (-a) / (-b)
  }

  /** Truncated division has exactly one answer. */
  lemma TruncatedQuotientUnique(a: int, b: int, q1: int, q2: int)
    requires b != 0
    requires IsTruncatedQuotient(a, b, q1) && IsTruncatedQuotient(a, b, q2)
    ensures q1 == q2
  {
    var r1, r2 := a - q1 * b, a - q2 * b;
    assert r1 - r2 == (q2 - q1) * b;
    assert Abs(r1 - r2) < Abs(b);
    if q1 != q2 {
      MultiplyAtLeast(q2 - q1, b);
      assert false;
    }
  }

  /** A non-zero multiple of `b` is at least `b` in magnitude. */
  lemma MultiplyAtLeast(k: int, b: int)
    requires k != 0
    ensures Abs(k * b) >= Abs(b)
  {
    if k > 0 {
      PositiveMultiple(k, b);
    } else {
      PositiveMultiple(-k, b);
      assert k * b == -((-k) * b);
    }
  }

  /** `k * b` for `k >= 1` lies on the far side of `b` from zero. */
  lemma {:induction false} PositiveMultiple(k: nat, b: int)
    requires k >= 1
    ensures b >= 0 ==> k * b >= b
    ensures b < 0 ==> k * b <= b
    decreases k
  {
    if k > 1 {
      PositiveMultiple(k - 1, b);
      assert k * b == (k - 1) * b + b;
    }
  }

  /** The worked examples: 7 / 2 is 3, and the quotient of a negative
      operand is rounded toward zero, not down. */
  lemma TruncDivExamples()
    ensures TruncDiv(7, 2) == 3 && TruncDiv(-7, 2) == -3 && TruncDiv(7, -2) == -3
  {
  }

  // ---------------------------------------------------------------------------
  // AvgSum: folding periods
  // ---------------------------------------------------------------------------

  /** What one `update(sum, count)` does to the accumulated pair. */
  function Merge(acc: Period, p: Period): (r: Period)
    ensures r.sum - p.sum == acc.sum && r.count - p.count == acc.count
  {
    Period(acc.sum + p.sum, acc.count + p.count)
  }

  /** The accumulated pair after `update` with each period of `ps` in turn,
      starting from `acc`. */
  function Fold(acc: Period, ps: seq<Period>): Period
    decreases |ps|
  {
    if ps == [] then acc else Fold(Merge(acc, ps[0]), ps[1..])
  }

  /** Merging is commutative and associative, and (0, 0) is its unit. */
  lemma MergeIsCommutativeMonoid(a: Period, b: Period, c: Period)
    ensures Merge(a, b) == Merge(b, a)
    ensures Merge(Merge(a, b), c) == Merge(a, Merge(b, c))
    ensures Merge(a, Period(0, 0)) == a
  {
  }

  /** Folding a concatenation is folding the first part, then the second. */
  lemma {:induction false} FoldAppend(acc: Period, ps: seq<Period>, qs: seq<Period>)
    ensures Fold(acc, ps + qs) == Fold(Fold(acc, ps), qs)
    decreases |ps|
  {
    if ps != [] {
      assert (ps + qs)[0] == ps[0];
      assert (ps + qs)[1..] == ps[1..] + qs;
      FoldAppend(Merge(acc, ps[0]), ps[1..], qs);
    } else {
      assert ps + qs == qs;
    }
  }

  /** Folding from any start is merging the start with the fold from (0, 0). */
  lemma {:induction false} FoldFromZero(acc: Period, ps: seq<Period>)
    ensures Fold(acc, ps) == Merge(acc, Fold(Period(0, 0), ps))
    decreases |ps|
  {
    if ps != [] {
      FoldFromZero(Merge(acc, ps[0]), ps[1..]);
      FoldFromZero(Merge(Period(0, 0), ps[0]), ps[1..]);
    }
  }

  /** Two partial folds computed separately and then merged give the same
      totals as one fold over all the periods. */
  lemma FoldSplit(ps: seq<Period>, qs: seq<Period>)
    ensures Fold(Period(0, 0), ps + qs) == Merge(Fold(Period(0, 0), ps), Fold(Period(0, 0), qs))
  {
    FoldAppend(Period(0, 0), ps, qs);
    FoldFromZero(Fold(Period(0, 0), ps), qs);
  }

  /** Moving one period to the front does not change a fold. */
  lemma {:induction false} FoldMoveToFront(acc: Period, xs: seq<Period>, p: Period, ys: seq<Period>)
    ensures Fold(acc, xs + [p] + ys) == Fold(Merge(acc, p), xs + ys)
    decreases |xs|
  {
    if xs != [] {
      assert (xs + [p] + ys)[0] == xs[0] && (xs + [p] + ys)[1..] == xs[1..] + [p] + ys;
      assert (xs + ys)[0] == xs[0] && (xs + ys)[1..] == xs[1..] + ys;
      FoldMoveToFront(Merge(acc, xs[0]), xs[1..], p, ys);
      assert Merge(Merge(acc, xs[0]), p) == Merge(Merge(acc, p), xs[0]);
    } else {
      assert xs + [p] + ys == [p] + ys && ([p] + ys)[1..] == ys;
      assert xs + ys == ys;
    }
  }

  /** Folding the same periods in any order gives the same totals. */
  lemma {:induction false} FoldPermutation(acc: Period, ps: seq<Period>, qs: seq<Period>)
    requires multiset(ps) == multiset(qs)
    ensures Fold(acc, ps) == Fold(acc, qs)
    decreases |ps|
  {
    if ps == [] {
      assert |qs| == |multiset(qs)| == 0;
    } else {
      var p := ps[0];
      assert p in multiset(qs);
      var j :| 0 <= j < |qs| && qs[j] == p;
      var xs, ys := qs[..j], qs[j + 1..];
      assert qs == xs + [p] + ys;
      assert ps == [p] + ps[1..];
      assert multiset(ps[1..]) == multiset(ps) - multiset{p};
      assert multiset(xs + ys) == multiset(qs) - multiset{p};
      FoldPermutation(Merge(acc, p), ps[1..], xs + ys);
      FoldMoveToFront(acc, xs, p, ys);
    }
  }

  /** The cumulative accumulator `AvgSum { sum: i64, count: i32 }`. */
  class AvgSum {
    var sum: int
    var count: int

    constructor (sum: int, count: int)
      ensures this.sum == sum && this.count == count
    {
      this.sum := sum;
      this.count := count;
    }

    /** The accumulated pair. */
    function Totals(): Period
      reads this
    {
      Period(sum, count)
    }

    /** Adds one period's sum and count into the accumulator. */
    method Update(s: int, c: int)
      modifies this
      ensures sum == old(sum) + s && count == old(count) + c
      ensures Totals() == Fold(old(Totals()), [Period(s, c)])
    {
      sum := sum + s;
      count := count + c;
    }

    /** The long-run average: the sum divided by the count, rounded toward
        zero. The source panics on a zero count. */
    function GetAverage(): (r: int)
      reads this
      requires count != 0
      ensures IsTruncatedQuotient(sum, count, r)
    {
      TruncDiv(sum, count)
    }
  }

  // ---------------------------------------------------------------------------
  // AvgVec: specification of the merged sales series
  // ---------------------------------------------------------------------------

  /** The sales of one channel, per timestamp. */
  function Sales(m: map<int, AvgAh>): (r: map<int, real>)
    ensures r.Keys == m.Keys
  {
    map t | t in m :: m[t].sales
  }

  /** The prices of one channel, per timestamp. */
  function Prices(m: map<int, AvgAh>): (r: map<int, real>)
    ensures r.Keys == m.Keys
  {
    map t | t in m :: m[t].price
  }

  /** The merged sales at timestamp `t`: the sum of both channels' sales where
      both have a sample at `t`, and the one channel's sales otherwise. */
  function CombinedAt(auctions: map<int, AvgAh>, bins: map<int, AvgAh>, t: int): real
    requires t in auctions || t in bins
  {
    if t in auctions && t in bins then auctions[t].sales + bins[t].sales
    else if t in auctions then auctions[t].sales
    else bins[t].sales
  }

  /** The merged sales series as a map from timestamp to sales. */
  function CombinedSales(auctions: map<int, AvgAh>, bins: map<int, AvgAh>): (r: map<int, real>)
    ensures r.Keys == auctions.Keys + bins.Keys
  {
    map t | t in auctions.Keys + bins.Keys :: CombinedAt(auctions, bins, t)
  }

  /** Taking one Buy-It-Now timestamp out of the merge changes only that
      timestamp's merged value. */
  lemma CombinedSalesStep(auctions: map<int, AvgAh>, bins: map<int, AvgAh>, t: int)
    requires t in bins
    ensures CombinedSales(auctions, bins) ==
            CombinedSales(auctions, bins - {t})[t := CombinedAt(auctions, bins, t)]
  {
    var lhs := CombinedSales(auctions, bins);
    var rhs := CombinedSales(auctions, bins - {t})[t := CombinedAt(auctions, bins, t)];
    assert lhs.Keys == rhs.Keys;
    forall k | k in lhs ensures lhs[k] == rhs[k] {
    }
  }

  /** Merging with an empty Buy-It-Now channel gives the Auction sales. */
  lemma CombinedSalesNoBins(auctions: map<int, AvgAh>, bins: map<int, AvgAh>)
    requires |bins| == 0
    ensures CombinedSales(auctions, bins) == Sales(auctions)
    ensures Sales(bins) == map[]
  {
  }

  /** Removing a sample removes its sales. */
  lemma SalesRemove(m: map<int, AvgAh>, t: int)
    ensures Sales(m - {t}) == Sales(m) - {t}
  {
  }

  /** Merging loses and duplicates no sales: the merged series sums to the
      two channels' sales together. */
  lemma {:induction false} CombinedSalesConserves(auctions: map<int, AvgAh>, bins: map<int, AvgAh>)
    ensures Total(CombinedSales(auctions, bins)) == Total(Sales(auctions)) + Total(Sales(bins))
    decreases |bins|
  {
    if |bins| == 0 {
      CombinedSalesNoBins(auctions, bins);
    } else {
      HasElement(bins.Keys);
      var t :| t in bins.Keys;
      var rest := bins - {t};
      assert |rest| < |bins| by { assert rest.Keys == bins.Keys - {t}; }
      CombinedSalesConserves(auctions, rest);
      CombinedTotalStep(auctions, bins, t);
      SalesRemove(bins, t);
      TotalRemove(Sales(bins), t);
    }
  }

  /** A Buy-It-Now sample adds exactly its sales to the merged total. */
  lemma CombinedTotalStep(auctions: map<int, AvgAh>, bins: map<int, AvgAh>, t: int)
    requires t in bins
    ensures Total(CombinedSales(auctions, bins)) == Total(CombinedSales(auctions, bins - {t})) + bins[t].sales
  {
    var before := CombinedSales(auctions, bins - {t});
    var v := CombinedAt(auctions, bins, t);
    CombinedSalesStep(auctions, bins, t);
    if t in auctions {
      assert before[t] == auctions[t].sales;
      assert v == auctions[t].sales + bins[t].sales;
      TotalReplace(before, t, v);
    } else {
      assert t !in before;
      assert v == bins[t].sales;
      TotalInsert(before, t, v);
    }
  }

  /** The worked example: Auction sales 5 and Buy-It-Now sales 3 at t = 100
      merge into 8, and a timestamp only one channel has passes through. */
  lemma CombinedSalesExample(a: AvgAh, b: AvgAh, c: AvgAh)
    requires a.sales == 5.0 && b.sales == 3.0 && c.sales == 7.0
    ensures CombinedSales(map[100 := a], map[100 := b, 200 := c]) == map[100 := 8.0, 200 := 7.0]
  {
  }

  // ---------------------------------------------------------------------------
  // AvgVec: specification of the average
  // ---------------------------------------------------------------------------

  /** An f64 mean `sum / n`; with no samples this is 0/0, a NaN, shown as
      `None`. */
  function Mean(sum: real, n: nat): (r: Option<real>)
    ensures r.Some? <==> n > 0
    ensures r.Some? ==> r.value * n as real == sum
  {
    if n == 0 then None else Some(sum / n as real)
  }

  /** `f64::min`: the smaller of two numbers, where a NaN loses to a number
      and the result is NaN only when both are NaN. */
  function Min(x: Option<real>, y: Option<real>): (r: Option<real>)
    ensures r.None? <==> x.None? && y.None?
    ensures r == x || r == y
    ensures r.Some? && x.Some? ==> r.value <= x.value
    ensures r.Some? && y.Some? ==> r.value <= y.value
  {
    match (x, y)
    case (None, _) => y
    case (_, None) => x
    case (Some(a), Some(b)) => if a <= b then x else y
  }

  /** The selection rule. In the new mode (`oldMethod == false`) a channel
      whose sales are more than ten times the other's is trusted alone;
      otherwise, and always in the old mode, the lower mean is reported. */
  function Select(oldMethod: bool, auctionsAverage: Option<real>, auctionsSales: real,
                  binsAverage: Option<real>, binsSales: real): (r: Option<real>)
    ensures r == auctionsAverage || r == binsAverage
    ensures oldMethod ==> r == Min(auctionsAverage, binsAverage)
    ensures !oldMethod && auctionsSales >= 0.0 && binsSales > auctionsSales * 10.0 ==> r == binsAverage
    ensures r.None? ==> auctionsAverage.None? || binsAverage.None?
  {
    if !oldMethod && auctionsSales > binsSales * 10.0 then auctionsAverage
    else if !oldMethod && binsSales > auctionsSales * 10.0 then binsAverage
    else Min(auctionsAverage, binsAverage)
  }

  /** A channel's unweighted mean price (`None` when it has no samples). */
  ghost function ChannelMean(m: map<int, AvgAh>): Option<real> {
    Mean(Total(Prices(m)), |m|)
  }

  /** A channel's total sales volume. */
  ghost function ChannelSales(m: map<int, AvgAh>): real {
    Total(Sales(m))
  }

  /** What `get_average(old_method)` reports for the two channels. */
  ghost function Average(auctions: map<int, AvgAh>, bins: map<int, AvgAh>, oldMethod: bool): (r: Option<real>)
    ensures r.None? ==> |auctions| == 0 || |bins| == 0
    ensures oldMethod ==> (r.None? <==> |auctions| == 0 && |bins| == 0)
  {
    Select(oldMethod, ChannelMean(auctions), ChannelSales(auctions), ChannelMean(bins), ChannelSales(bins))
  }

  /** A channel without samples has no mean and no sales. */
  lemma EmptyChannel()
    ensures ChannelMean(map[]) == None && ChannelSales(map[]) == 0.0
  {
    assert Sales(map[]) == map[];
  }

  /** Every sample in the channel has non-negative sales. */
  ghost predicate NonNegativeSales(m: map<int, AvgAh>) {
    forall t :: t in m ==> m[t].sales >= 0.0
  }

  /** Non-negative sales add up to non-negative channel sales. */
  lemma ChannelSalesNonNegative(m: map<int, AvgAh>)
    requires NonNegativeSales(m)
    ensures ChannelSales(m) >= 0.0
  {
    TotalNonNegative(Sales(m));
  }

  /** A mean set against an empty channel with no sales is selected in
      either position and either mode, provided its own sales are not
      negative. */
  lemma SelectAgainstEmpty(oldMethod: bool, mean: Option<real>, sales: real)
    requires mean.Some? && sales >= 0.0
    ensures Select(oldMethod, mean, sales, None, 0.0) == mean
    ensures Select(oldMethod, None, 0.0, mean, sales) == mean
  {
  }

  /** In the old mode the lower of the two means is reported, whatever the
      sales volumes. */
  lemma OldMethodTakesLowerMean(auctions: map<int, AvgAh>, bins: map<int, AvgAh>)
    requires |auctions| > 0 && |bins| > 0
    ensures Average(auctions, bins, true).Some?
    ensures var a, b := ChannelMean(auctions).value, ChannelMean(bins).value;
            Average(auctions, bins, true).value == if a <= b then a else b
  {
  }

  /** In the new mode a channel with more than ten times the other's sales
      wins outright; otherwise the lower of the two means is reported. */
  lemma NewMethodDominance(auctions: map<int, AvgAh>, bins: map<int, AvgAh>)
    requires |auctions| > 0 && |bins| > 0
    ensures var a, b := ChannelMean(auctions).value, ChannelMean(bins).value;
            var sa, sb := ChannelSales(auctions), ChannelSales(bins);
            Average(auctions, bins, false) ==
              if sa > 10.0 * sb then Some(a)
              else if sb > 10.0 * sa then Some(b)
              else Some(if a <= b then a else b)
  {
  }

  /** With only Auction samples (and non-negative sales) both modes report the
      Auction mean. */
  lemma OnlyAuctions(auctions: map<int, AvgAh>, oldMethod: bool)
    requires |auctions| > 0 && NonNegativeSales(auctions)
    ensures Average(auctions, map[], oldMethod) == ChannelMean(auctions)
    ensures Average(auctions, map[], oldMethod).Some?
  {
    ChannelSalesNonNegative(auctions);
    EmptyChannel();
    SelectAgainstEmpty(oldMethod, ChannelMean(auctions), ChannelSales(auctions));
  }

  /** With only Buy-It-Now samples (and non-negative sales) both modes report
      the Buy-It-Now mean. */
  lemma OnlyBins(bins: map<int, AvgAh>, oldMethod: bool)
    requires |bins| > 0 && NonNegativeSales(bins)
    ensures Average(map[], bins, oldMethod) == ChannelMean(bins)
    ensures Average(map[], bins, oldMethod).Some?
  {
    ChannelSalesNonNegative(bins);
    EmptyChannel();
    SelectAgainstEmpty(oldMethod, ChannelMean(bins), ChannelSales(bins));
  }

  /** Without non-negative sales the empty channel can win: with no Auction
      samples and negative Buy-It-Now sales, the new mode picks the Auction
      mean, which is NaN. */
  lemma NegativeSalesReportNaN(bins: map<int, AvgAh>)
    requires |bins| > 0 && ChannelSales(bins) < 0.0
    ensures Average(map[], bins, false) == None
  {
    EmptyChannel();
  }

  /** The mirror case: with no Buy-It-Now samples and negative Auction
      sales, the new mode picks the Buy-It-Now mean, which is NaN. */
  lemma NegativeAuctionSalesReportNaN(auctions: map<int, AvgAh>)
    requires |auctions| > 0 && ChannelSales(auctions) < 0.0
    ensures Average(auctions, map[], false) == None
  {
    EmptyChannel();
  }

  /** With no samples at all the result is NaN in both modes. */
  lemma EmptyStoreReportsNaN(oldMethod: bool)
    ensures Average(map[], map[], oldMethod) == None
  {
  }

  /** The reported average is one of the two channel means. */
  lemma AverageIsAChannelMean(auctions: map<int, AvgAh>, bins: map<int, AvgAh>, oldMethod: bool)
    ensures Average(auctions, bins, oldMethod) in {ChannelMean(auctions), ChannelMean(bins)}
  {
  }

  /** A channel's mean lies within the range of its prices. */
  lemma MeanWithinPrices(m: map<int, AvgAh>, lo: real, hi: real)
    requires |m| > 0
    requires forall t :: t in m ==> lo <= m[t].price <= hi
    ensures ChannelMean(m).Some? && lo <= ChannelMean(m).value <= hi
  {
    var ps := Prices(m);
    TotalBounds(ps, lo, hi);
    var n := |m| as real;
    assert ChannelMean(m).value == Total(ps) / n;
  }

  /** When every stored price lies in `[lo, hi]`, so does the reported
      average (if it is not NaN). */
  lemma AverageWithinPrices(auctions: map<int, AvgAh>, bins: map<int, AvgAh>, oldMethod: bool, lo: real, hi: real)
    requires forall t :: t in auctions ==> lo <= auctions[t].price <= hi
    requires forall t :: t in bins ==> lo <= bins[t].price <= hi
    requires Average(auctions, bins, oldMethod).Some?
    ensures lo <= Average(auctions, bins, oldMethod).value <= hi
  {
    AverageIsAChannelMean(auctions, bins, oldMethod);
    if |auctions| > 0 { MeanWithinPrices(auctions, lo, hi); }
    if |bins| > 0 { MeanWithinPrices(bins, lo, hi); }
  }

  /** The worked example: Auction prices 1,000,000 and 1,100,000 with sales 2
      and 1 (mean 1,050,000, sales 3) against one Buy-It-Now price 900,000
      with sales 50. Buy-It-Now has more than ten times the sales, so the new
      mode reports 900,000; the old mode reports the lower mean, also 900,000. */
  lemma DominanceExample(id: string)
    ensures var auctions := map[100 := AvgAh(id, 1000000.0, 2.0), 200 := AvgAh(id, 1100000.0, 1.0)];
            var bins := map[100 := AvgAh(id, 900000.0, 50.0)];
            ChannelMean(auctions) == Some(1050000.0) && ChannelSales(auctions) == 3.0 &&
            Average(auctions, bins, false) == Some(900000.0) &&
            Average(auctions, bins, true) == Some(900000.0)
  {
    var auctions := map[100 := AvgAh(id, 1000000.0, 2.0), 200 := AvgAh(id, 1100000.0, 1.0)];
    var bins := map[100 := AvgAh(id, 900000.0, 50.0)];
    var first := map[100 := AvgAh(id, 1000000.0, 2.0)];
    assert auctions == first[200 := AvgAh(id, 1100000.0, 1.0)];
    assert Prices(auctions) == Prices(first)[200 := 1100000.0];
    assert Sales(auctions) == Sales(first)[200 := 1.0];
    assert Prices(first) == map[100 := 1000000.0];
    assert Sales(first) == map[100 := 2.0];
    TotalSingleton(100, 1000000.0);
    TotalSingleton(100, 2.0);
    TotalInsert(Prices(first), 200, 1100000.0);
    TotalInsert(Sales(first), 200, 1.0);
    assert Prices(bins) == map[100 := 900000.0];
    assert Sales(bins) == map[100 := 50.0];
    TotalSingleton(100, 900000.0);
    TotalSingleton(100, 50.0);
    assert |auctions| == 2;
  }

  // ---------------------------------------------------------------------------
  // AvgVec: the store
  // ---------------------------------------------------------------------------

  /** Sums the prices and the sales of one channel, visiting its samples in
      no particular order (the two accumulation loops of `get_average`). */
  method ChannelTotals(m: map<int, AvgAh>) returns (priceSum: real, salesSum: real)
    ensures priceSum == Total(Prices(m)) && salesSum == Total(Sales(m))
  {
    priceSum, salesSum := 0.0, 0.0;
    ghost var done: map<int, AvgAh> := map[];
    var todo := m.Keys;
    while todo != {}
      invariant IsSplit(m, done, todo)
      invariant priceSum == Total(Prices(done)) && salesSum == Total(Sales(done))
      decreases todo
    {
      HasElement(todo);
      var t :| t in todo;
      TotalsStep(m, done, todo, t);
      done := done[t := m[t]];
      priceSum := priceSum + m[t].price;
      salesSum := salesSum + m[t].sales;
      todo := todo - {t};
    }
    SplitDone(m, done);
  }

  /** `done` holds the samples of `m` already visited and `todo` the
      timestamps still to visit. */
  ghost predicate IsSplit(m: map<int, AvgAh>, done: map<int, AvgAh>, todo: set<int>) {
    && todo <= m.Keys
    && done.Keys == m.Keys - todo
    && forall t :: t in done ==> done[t] == m[t]
  }

  /** Visiting one more sample adds its price and sales to the running sums. */
  lemma TotalsStep(m: map<int, AvgAh>, done: map<int, AvgAh>, todo: set<int>, t: int)
    requires IsSplit(m, done, todo) && t in todo
    ensures IsSplit(m, done[t := m[t]], todo - {t})
    ensures Total(Prices(done[t := m[t]])) == Total(Prices(done)) + m[t].price
    ensures Total(Sales(done[t := m[t]])) == Total(Sales(done)) + m[t].sales
  {
    ProjectInsert(done, t, m[t]);
    TotalInsert(Prices(done), t, m[t].price);
    TotalInsert(Sales(done), t, m[t].sales);
  }

  /** Adding a sample adds its price and its sales to the projections. */
  lemma ProjectInsert(m: map<int, AvgAh>, t: int, a: AvgAh)
    ensures Prices(m[t := a]) == Prices(m)[t := a.price]
    ensures Sales(m[t := a]) == Sales(m)[t := a.sales]
  {
  }

  /** With nothing left to visit, every sample has been visited. */
  lemma SplitDone(m: map<int, AvgAh>, done: map<int, AvgAh>)
    requires IsSplit(m, done, {})
    ensures done == m
  {
    assert m.Keys - {} == m.Keys;
    forall t | t in m ensures done[t] == m[t] {
    }
  }

  /** Merges the two channels' sales per timestamp (the two insertion loops
      of `get_sales`): every Auction sample is inserted, then each Buy-It-Now
      sample is added to an existing entry or inserted. */
  method MergeSales(auctions: map<int, AvgAh>, bins: map<int, AvgAh>) returns (merged: map<int, real>)
    ensures merged == CombinedSales(auctions, bins)
  {
    merged := map[];
    var todo := auctions.Keys;
    while todo != {}
      invariant todo <= auctions.Keys
      invariant merged.Keys == auctions.Keys - todo
      invariant forall t :: t in merged ==> merged[t] == auctions[t].sales
      decreases todo
    {
      HasElement(todo);
      var t :| t in todo;
      merged := merged[t := auctions[t].sales];
      todo := todo - {t};
    }

    todo := bins.Keys;
    while todo != {}
      invariant todo <= bins.Keys
      invariant merged.Keys == auctions.Keys + (bins.Keys - todo)
      invariant forall t :: t in merged ==>
                  merged[t] == if t in todo then auctions[t].sales else CombinedAt(auctions, bins, t)
      decreases todo
    {
      HasElement(todo);
      var t :| t in todo;
      if t in merged {
        merged := merged[t := merged[t] + bins[t].sales];
      } else {
        merged := merged[t := bins[t].sales];
      }
      todo := todo - {t};
    }
  }

  /** Collects the values of `m` into a sequence, visiting its keys in no
      particular order (the final `iter().map(..).collect()` of `get_sales`);
      `order` names the key of each value. */
  method CollectValues(m: map<int, real>) returns (values: seq<real>, ghost order: seq<int>)
    ensures |values| == |order| == |m|
    ensures forall i, j :: 0 <= i < j < |order| ==> order[i] != order[j]
    ensures forall t :: t in order <==> t in m
    ensures forall i :: 0 <= i < |order| ==> order[i] in m && values[i] == m[order[i]]
    ensures SeqSum(values) == Total(m)
  {
    values, order := [], [];
    var todo := m.Keys;
    while todo != {}
      invariant todo <= m.Keys
      invariant |values| == |order|
      invariant forall i, j :: 0 <= i < j < |order| ==> order[i] != order[j]
      invariant forall t :: t in order <==> t in m && t !in todo
      invariant forall i :: 0 <= i < |order| ==> order[i] in m && values[i] == m[order[i]]
      invariant |values| + |todo| == |m|
      invariant SeqSum(values) + SumOver(m, todo) == Total(m)
      decreases todo
    {
      HasElement(todo);
      var t :| t in todo;
      SumOverRemove(m, todo, t);
      SeqSumAppend(values, m[t]);
      assert |todo - {t}| == |todo| - 1;
      values := values + [m[t]];
      order := order + [t];
      todo := todo - {t};
    }
  }

  /** One item's samples: `auctions` is the Auction channel and `bins` the
      Buy-It-Now channel, each a map from timestamp to sample. */
  class AvgVec {
    var auctions: map<int, AvgAh>
    var bins: map<int, AvgAh>

    /** A store holding just the one sample, in the channel `idx` selects. */
    constructor From(avgAh: AvgAh, timeT: int, idx: nat)
      ensures idx == 0 ==> auctions == map[timeT := avgAh] && bins == map[]
      ensures idx != 0 ==> auctions == map[] && bins == map[timeT := avgAh]
    {
      auctions := map[];
      bins := map[];
      new;
      Update(avgAh, timeT, idx);
    }

    /** Upserts a sample: `idx == 0` selects the Auction channel, any other
        value the Buy-It-Now channel; a sample already stored at `timeT` in
        that channel is replaced. */
    method Update(avgAh: AvgAh, timeT: int, idx: nat)
      modifies this
      ensures idx == 0 ==> auctions == old(auctions)[timeT := avgAh] && bins == old(bins)
      ensures idx != 0 ==> bins == old(bins)[timeT := avgAh] && auctions == old(auctions)
    {
      if idx == 0 {
        auctions := auctions[timeT := avgAh];
      } else {
        bins := bins[timeT := avgAh];
      }
    }

    /** The selected channel. */
    function Channel(idx: nat): map<int, AvgAh>
      reads this
    {
      if idx == 0 then auctions else bins
    }

    /** Two updates at the same channel and timestamp leave one entry there,
        holding the later sample; the channel gains at most one timestamp and
        the other entries are untouched. */
    method UpdateTwice(first: AvgAh, second: AvgAh, timeT: int, idx: nat)
      modifies this
      ensures Channel(idx) == old(Channel(idx))[timeT := second]
      ensures timeT in Channel(idx) && Channel(idx)[timeT] == second
      ensures |Channel(idx)| <= |old(Channel(idx))| + 1
      ensures idx == 0 ==> bins == old(bins)
      ensures idx != 0 ==> auctions == old(auctions)
    {
      Update(first, timeT, idx);
      Update(second, timeT, idx);
      assert old(Channel(idx))[timeT := first][timeT := second] == old(Channel(idx))[timeT := second];
    }

    /** The merged sales series: one value per timestamp of either channel,
        in no particular order. `order` names the timestamp of each value. */
    method GetSales() returns (sales: seq<real>, ghost order: seq<int>)
      ensures |sales| == |order|
      ensures forall i, j :: 0 <= i < j < |order| ==> order[i] != order[j]
      ensures forall t :: t in order <==> t in auctions || t in bins
      ensures forall i :: 0 <= i < |order| ==> order[i] in CombinedSales(auctions, bins)
      ensures forall i :: 0 <= i < |order| ==> sales[i] == CombinedSales(auctions, bins)[order[i]]
      ensures |sales| == |auctions.Keys + bins.Keys|
      ensures SeqSum(sales) == Total(Sales(auctions)) + Total(Sales(bins))
    {
      var merged := MergeSales(auctions, bins);
      sales, order := CollectValues(merged);
      CombinedSalesConserves(auctions, bins);
    }

    /** `get_average(old_method)`: each channel's mean price and total sales,
        then the selection rule. */
    method GetAverage(oldMethod: bool) returns (r: Option<real>)
      ensures r == Average(auctions, bins, oldMethod)
    {
      var auctionsSum, auctionsSales := ChannelTotals(auctions);
      var binsSum, binsSales := ChannelTotals(bins);
      var auctionsAverage := Mean(auctionsSum, |auctions|);
      var binsAverage := Mean(binsSum, |bins|);
      r := Select(oldMethod, auctionsAverage, auctionsSales, binsAverage, binsSales);
    }
  }
}
