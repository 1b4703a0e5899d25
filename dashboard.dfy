/** The dashboard statistics: pure reductions over rows already fetched (the cars in
    stock, this month's sales, the latest sales, every sale's make, and the sales of
    each of the last six months), plus the make tally built by a counting loop. */
module DashboardStats {
  import opened Common
  import opened Enums
  import opened Utils

  // --------------------------------------------------------------- rows

  /** A car not yet sold: cost basis, purchase instant (ms) and its expense amounts. */
  datatype StockCar = StockCar(purchasePrice: real, purchaseDate: int, expenseAmounts: seq<real>)

  /** The money side of one sale: price, the car's cost basis and its expense amounts. */
  datatype SaleFigures = SaleFigures(salePrice: real, purchasePrice: real, expenseAmounts: seq<real>)

  /** One of this month's sales; the stored profit is fetched but never used. */
  datatype MonthSale = MonthSale(figures: SaleFigures, storedProfit: Option<real>, make: string, model: string)

  /** One of the latest sales: the stored profit (possibly null) and the two instants. */
  datatype RecentSale = RecentSale(profit: Option<real>, saleDate: int, purchaseDate: int)

  datatype StatusCount = StatusCount(status: CarStatus, count: nat)

  // --------------------------------------------------------------- inventory

  /** Left-to-right total of cost basis plus expenses over the cars in stock. */
  function InventoryValue(cars: seq<StockCar>): real
  {
    if |cars| == 0 then 0.0
    else
      var car := cars[|cars| - 1];
      InventoryValue(cars[..|cars| - 1]) + car.purchasePrice + Sum(car.expenseAmounts)
  }

  function PurchasePrices(cars: seq<StockCar>): seq<real>
  {
    seq(|cars|, i requires 0 <= i < |cars| => cars[i].purchasePrice)
  }

  function ExpenseTotals(cars: seq<StockCar>): seq<real>
  {
    seq(|cars|, i requires 0 <= i < |cars| => Sum(cars[i].expenseAmounts))
  }

  /** The inventory value is the summed cost basis plus the summed expenses of the cars
      in stock. */
  lemma {:induction false} InventoryValueDecomposes(cars: seq<StockCar>)
    ensures InventoryValue(cars) == Sum(PurchasePrices(cars)) + Sum(ExpenseTotals(cars))
  {
    if |cars| > 0 {
      var p := cars[..|cars| - 1];
      assert PurchasePrices(cars)[..|cars| - 1] == PurchasePrices(p);
      assert ExpenseTotals(cars)[..|cars| - 1] == ExpenseTotals(p);
      InventoryValueDecomposes(p);
    }
  }

  /** With no negative price or amount, the inventory is worth at least its summed cost
      basis. */
  lemma InventoryValueAtLeastCost(cars: seq<StockCar>)
    requires forall i :: 0 <= i < |cars| ==> forall j :: 0 <= j < |cars[i].expenseAmounts| ==> cars[i].expenseAmounts[j] >= 0.0
    ensures InventoryValue(cars) >= Sum(PurchasePrices(cars))
  {
    InventoryValueDecomposes(cars);
    forall i | 0 <= i < |cars|
      ensures ExpenseTotals(cars)[i] >= 0.0
    {
      SumNonnegative(cars[i].expenseAmounts);
    }
    SumNonnegative(ExpenseTotals(cars));
  }

  lemma {:induction false} InventoryValueAppend(u: seq<StockCar>, v: seq<StockCar>)
    ensures InventoryValue(u + v) == InventoryValue(u) + InventoryValue(v)
    decreases |v|
  {
    if |v| == 0 {
      assert u + v == u;
    } else {
      var v' := v[..|v| - 1];
      assert (u + v)[..|u + v| - 1] == u + v';
      InventoryValueAppend(u, v');
    }
  }

  lemma InventoryValueSingleton(x: StockCar)
    ensures InventoryValue([x]) == x.purchasePrice + Sum(x.expenseAmounts)
  {
    assert [x][..0] == [];
  }

  /** Taking one car out of a fetch lowers its value by that car's value. */
  lemma InventoryValueRemove(left: seq<StockCar>, x: StockCar, right: seq<StockCar>)
    ensures InventoryValue(left + [x] + right) == InventoryValue(left + right) + x.purchasePrice + Sum(x.expenseAmounts)
  {
    InventoryValueAppend(left + [x], right);
    InventoryValueAppend(left, [x]);
    InventoryValueAppend(left, right);
    InventoryValueSingleton(x);
  }

  /** Removing the same car from two fetches with equal multisets keeps them equal. */
  lemma MultisetRemove(a': seq<StockCar>, x: StockCar, b: seq<StockCar>, k: nat)
    requires k < |b| && b[k] == x && multiset(a' + [x]) == multiset(b)
    ensures multiset(a') == multiset(b[..k] + b[k + 1..])
  {
    var b' := b[..k] + b[k + 1..];
    assert b == b[..k] + [x] + b[k + 1..];
    calc {
      multiset(a') + multiset{x};
      multiset(a' + [x]);
      multiset(b);
      multiset(b[..k]) + multiset{x} + multiset(b[k + 1..]);
      multiset(b') + multiset{x};
    }
    assert multiset(a') == multiset(a') + multiset{x} - multiset{x};
    assert multiset(b') == multiset(b') + multiset{x} - multiset{x};
  }

  /** The inventory value does not depend on the order the cars were fetched in. */
  lemma {:induction false} InventoryValueOrderFree(a: seq<StockCar>, b: seq<StockCar>)
    requires multiset(a) == multiset(b)
    ensures InventoryValue(a) == InventoryValue(b)
    decreases |a|
  {
    if |a| == 0 {
      assert |multiset(b)| == 0;
    } else {
      var x := a[|a| - 1];
      var a' := a[..|a| - 1];
      assert a == a' + [x];
      assert x in multiset(b);
      var k :| 0 <= k < |b| && b[k] == x;
      MultisetRemove(a', x, b, k);
      InventoryValueOrderFree(a', b[..k] + b[k + 1..]);
      assert b == b[..k] + [x] + b[k + 1..];
      InventoryValueRemove(b[..k], x, b[k + 1..]);
    }
  }

  /** Sixty days before `now`, counted in whole days of milliseconds. */
  function SixtyDaysBefore(now: int): int
  {
    now - 60 * MsPerDay
  }

  /** The positions of the cars bought strictly before the cutoff. */
  ghost function OldIndices(cars: seq<StockCar>, cutoff: int): set<int>
  {
    set i | 0 <= i < |cars| && cars[i].purchaseDate < cutoff
  }

  /** Extending the stock by one car adds its position exactly when it is old. */
  lemma OldIndicesSnoc(cars: seq<StockCar>, cutoff: int)
    requires |cars| > 0
    ensures var p, last := cars[..|cars| - 1], |cars| - 1;
            && last !in OldIndices(p, cutoff)
            && OldIndices(cars, cutoff)
               == OldIndices(p, cutoff) + (if cars[last].purchaseDate < cutoff then {last} else {})
  {
    var p := cars[..|cars| - 1];
    assert forall i :: 0 <= i < |p| ==> p[i] == cars[i];
  }

  /** How many cars in stock were bought strictly before the cutoff. */
  function OldInventoryCount(cars: seq<StockCar>, cutoff: int): (n: nat)
    ensures n == |OldIndices(cars, cutoff)|
    ensures n <= |cars|
    ensures n == 0 <==> forall i :: 0 <= i < |cars| ==> cars[i].purchaseDate >= cutoff
    ensures n == |cars| <==> forall i :: 0 <= i < |cars| ==> cars[i].purchaseDate < cutoff
  {
    if |cars| == 0 then
      assert OldIndices(cars, cutoff) == {};
      0
    else
      var p := cars[..|cars| - 1];
      var n := OldInventoryCount(p, cutoff);
      assert forall i :: 0 <= i < |p| ==> p[i] == cars[i];
      OldIndicesSnoc(cars, cutoff);
      if cars[|cars| - 1].purchaseDate < cutoff then n + 1 else n
  }

  // --------------------------------------------------------------- sales totals

  /** A sale's profit recomputed from its figures. */
  function FiguresProfit(f: SaleFigures): real
  {
    CalculateProfit(f.salePrice, f.purchasePrice, Sum(f.expenseAmounts))
  }

  function Revenue(sales: seq<SaleFigures>): real
  {
    if |sales| == 0 then 0.0 else Revenue(sales[..|sales| - 1]) + sales[|sales| - 1].salePrice
  }

  function Profit(sales: seq<SaleFigures>): real
  {
    if |sales| == 0 then 0.0 else Profit(sales[..|sales| - 1]) + FiguresProfit(sales[|sales| - 1])
  }

  function Costs(sales: seq<SaleFigures>): real
  {
    if |sales| == 0 then 0.0
    else Costs(sales[..|sales| - 1]) + sales[|sales| - 1].purchasePrice + Sum(sales[|sales| - 1].expenseAmounts)
  }

  /** Profit over a set of sales is revenue less the cost basis and expenses of the
      cars sold. */
  lemma {:induction false} ProfitIsRevenueLessCosts(sales: seq<SaleFigures>)
    ensures Profit(sales) == Revenue(sales) - Costs(sales)
  {
    if |sales| > 0 {
      ProfitIsRevenueLessCosts(sales[..|sales| - 1]);
    }
  }

  function Figures(sales: seq<MonthSale>): (fs: seq<SaleFigures>)
    ensures |fs| == |sales|
    ensures forall i :: 0 <= i < |sales| ==> fs[i] == sales[i].figures
  {
    seq(|sales|, i requires 0 <= i < |sales| => sales[i].figures)
  }

  datatype MonthSummary = MonthSummary(salesCount: nat, revenue: real, profit: real)

  /** This month's figures: the count, the revenue and the recomputed profit; the stored
      profits play no part. */
  function ThisMonth(sales: seq<MonthSale>): (m: MonthSummary)
    ensures m.salesCount == |sales|
    ensures m.profit == m.revenue - Costs(Figures(sales))
  {
    ProfitIsRevenueLessCosts(Figures(sales));
    MonthSummary(|sales|, Revenue(Figures(sales)), Profit(Figures(sales)))
  }

  /** The stored profit of a sale never reaches the month's summary. */
  lemma ThisMonthIgnoresStoredProfit(a: seq<MonthSale>, b: seq<MonthSale>)
    requires |a| == |b| && forall i :: 0 <= i < |a| ==> a[i].figures == b[i].figures
    ensures ThisMonth(a) == ThisMonth(b)
  {
    assert Figures(a) == Figures(b);
  }

  // --------------------------------------------------------------- averages

  /** Whole days from purchase to sale, rounded down. */
  function DaysToSell(s: RecentSale): (d: int)
    ensures d * MsPerDay <= s.saleDate - s.purchaseDate < (d + 1) * MsPerDay
  {
    (s.saleDate - s.purchaseDate) / MsPerDay
  }

  function TotalDays(sales: seq<RecentSale>): int
  {
    if |sales| == 0 then 0 else TotalDays(sales[..|sales| - 1]) + DaysToSell(sales[|sales| - 1])
  }

  /** `profit || 0`: a null (or zero) stored profit counts as 0. */
  function ProfitOrZero(p: Option<real>): real
  {
    if p.Some? then p.value else 0.0
  }

  function TotalStoredProfit(sales: seq<RecentSale>): real
  {
    if |sales| == 0 then 0.0 else TotalStoredProfit(sales[..|sales| - 1]) + ProfitOrZero(sales[|sales| - 1].profit)
  }

  /** Mean days to sell over the latest sales; 0 when there are none. */
  function AvgDaysToSell(sales: seq<RecentSale>): (avg: real)
    ensures |sales| == 0 ==> avg == 0.0
    ensures |sales| > 0 ==> avg * (|sales| as real) == TotalDays(sales) as real
  {
    if |sales| > 0 then TotalDays(sales) as real / (|sales| as real) else 0.0
  }

  /** Mean stored profit over the latest sales, a null profit counting as 0; 0 when there
      are none. */
  function AvgProfit(sales: seq<RecentSale>): (avg: real)
    ensures |sales| == 0 ==> avg == 0.0
    ensures |sales| > 0 ==> avg * (|sales| as real) == TotalStoredProfit(sales)
  {
    if |sales| > 0 then TotalStoredProfit(sales) / (|sales| as real) else 0.0
  }

  /** A sale whose stored profit is null weighs on the average exactly like one whose
      stored profit is 0. */
  lemma {:induction false} NullProfitCountsAsZero(sales: seq<RecentSale>, k: nat)
    requires k < |sales| && sales[k].profit.None?
    ensures AvgProfit(sales) == AvgProfit(sales[k := sales[k].(profit := Some(0.0))])
  {
    var t := sales[k := sales[k].(profit := Some(0.0))];
    assert TotalStoredProfit(sales) == TotalStoredProfit(t) by {
      TotalStoredProfitPointwise(sales, t);
    }
  }

  lemma {:induction false} TotalStoredProfitPointwise(a: seq<RecentSale>, b: seq<RecentSale>)
    requires |a| == |b| && forall i :: 0 <= i < |a| ==> ProfitOrZero(a[i].profit) == ProfitOrZero(b[i].profit)
    ensures TotalStoredProfit(a) == TotalStoredProfit(b)
  {
    if |a| > 0 {
      TotalStoredProfitPointwise(a[..|a| - 1], b[..|b| - 1]);
    }
  }

  /** `Math.round`: the nearest integer, halves rounded up. */
  function Round(x: real): (r: int)
    ensures (r as real) - 0.5 <= x < (r as real) + 0.5
  {
    (x + 0.5).Floor
  }

  // --------------------------------------------------------------- best-selling make

  /** How many times `x` occurs in `xs`. */
  function Occurrences(xs: seq<string>, x: string): nat
  {
    if |xs| == 0 then 0 else Occurrences(xs[..|xs| - 1], x) + (if xs[|xs| - 1] == x then 1 else 0)
  }

  predicate NoDuplicates(xs: seq<string>)
  {
    forall i, j :: 0 <= i < j < |xs| ==> xs[i] != xs[j]
  }

  /** The distinct values of `xs` in order of first occurrence: the key order of a
      dictionary filled by walking `xs`. */
  function FirstOccurrences(xs: seq<string>): (keys: seq<string>)
    ensures NoDuplicates(keys)
    ensures forall x :: x in keys <==> x in xs
  {
    if |xs| == 0 then []
    else
      var keys := FirstOccurrences(xs[..|xs| - 1]);
      assert forall x :: x in xs <==> x in xs[..|xs| - 1] || x == xs[|xs| - 1];
      if xs[|xs| - 1] in keys then keys else keys + [xs[|xs| - 1]]
  }

  lemma OccurrencesPositive(xs: seq<string>, x: string)
    ensures Occurrences(xs, x) > 0 <==> x in xs
  {
    if |xs| > 0 {
      OccurrencesPositive(xs[..|xs| - 1], x);
      assert forall y :: y in xs <==> y in xs[..|xs| - 1] || y == xs[|xs| - 1];
    }
  }

  /** Tallies the makes of all sales into a dictionary, walking the sales in order and
      adding one to the make's entry (an absent entry counting as 0). Also returns the
      dictionary's key order. */
  method CountMakes(makes: seq<string>) returns (counts: map<string, nat>, keys: seq<string>)
    ensures keys == FirstOccurrences(makes)
    ensures forall m :: m in counts <==> m in makes
    ensures forall m :: m in counts ==> counts[m] == Occurrences(makes, m)
  {
    counts, keys := map[], [];
    var i := 0;
    while i < |makes|
      invariant 0 <= i <= |makes|
      invariant keys == FirstOccurrences(makes[..i])
      invariant forall m :: m in counts <==> m in makes[..i]
      invariant forall m :: m in counts ==> counts[m] == Occurrences(makes[..i], m)
    {
      var make := makes[i];
      assert makes[..i + 1][..i] == makes[..i];
      assert forall m :: m in makes[..i + 1] <==> m in makes[..i] || m == make;
      var current := if make in counts then counts[make] else 0;
      OccurrencesPositive(makes[..i], make);
      if make !in counts {
        keys := keys + [make];
      }
      counts := counts[make := current + 1];
      i := i + 1;
    }
    assert makes[..i] == makes;
  }

  /** Sum of the tallies of `keys`. */
  function TallyTotal(keys: seq<string>, xs: seq<string>): nat
  {
    if |keys| == 0 then 0 else TallyTotal(keys[..|keys| - 1], xs) + Occurrences(xs, keys[|keys| - 1])
  }

  lemma {:induction false} TallyTotalSnoc(keys: seq<string>, xs: seq<string>, x: string)
    requires NoDuplicates(keys)
    ensures TallyTotal(keys, xs + [x]) == TallyTotal(keys, xs) + (if x in keys then 1 else 0)
  {
    if |keys| > 0 {
      var p := keys[..|keys| - 1];
      assert forall y :: y in keys <==> y in p || y == keys[|keys| - 1];
      assert (xs + [x])[..|xs + [x]| - 1] == xs;
      TallyTotalSnoc(p, xs, x);
    }
  }

  /** The make counts add up to the number of sales. */
  lemma {:induction false} MakeCountsSumToSales(makes: seq<string>)
    ensures TallyTotal(FirstOccurrences(makes), makes) == |makes|
  {
    if |makes| > 0 {
      var p := makes[..|makes| - 1];
      var x := makes[|makes| - 1];
      var keys := FirstOccurrences(p);
      assert p + [x] == makes;
      MakeCountsSumToSales(p);
      TallyTotalSnoc(keys, p, x);
      if x !in keys {
        assert (keys + [x])[..|keys + [x]| - 1] == keys;
        OccurrencesPositive(p, x);
      }
    }
  }

  datatype MakeCount = MakeCount(make: string, count: nat)

  function Tallies(keys: seq<string>, counts: map<string, nat>): (scores: seq<real>)
    requires forall k :: k in keys ==> k in counts
    ensures |scores| == |keys|
    ensures forall i :: 0 <= i < |keys| ==> scores[i] == counts[keys[i]] as real
  {
    seq(|keys|, i requires 0 <= i < |keys| => counts[keys[i]] as real)
  }

  /** The first entry once the tally is sorted by count, highest first, with a stable
      sort: the earliest key (in key order) among those with the highest count. */
  function BestEntry(keys: seq<string>, counts: map<string, nat>): (best: Option<MakeCount>)
    requires forall k :: k in keys ==> k in counts
    ensures best.None? <==> |keys| == 0
    ensures best.Some? ==> best.value.make in keys && best.value.count == counts[best.value.make]
  {
    if |keys| == 0 then None
    else
      var k := FirstArgMax(Tallies(keys, counts));
      Some(MakeCount(keys[k], counts[keys[k]]))
  }

  function MakeTally(makes: seq<string>): (counts: map<string, nat>)
    ensures forall m :: m in counts <==> m in makes
  {
    map m | m in makes :: Occurrences(makes, m)
  }

  /** The best-selling make over the makes of all sales. */
  function BestSellingMake(makes: seq<string>): Option<MakeCount>
  {
    BestEntry(FirstOccurrences(makes), MakeTally(makes))
  }

  /** There is a best-selling make exactly when there is a sale; it is a make that was
      sold, with its true count; no make sold more often; and every make first sold
      before it sold strictly less often. */
  lemma BestSellingMakeIsFirstMost(makes: seq<string>)
    ensures BestSellingMake(makes).None? <==> |makes| == 0
    ensures BestSellingMake(makes).Some? ==>
              var best := BestSellingMake(makes).value;
              var keys := FirstOccurrences(makes);
              && best.make in makes && best.count == Occurrences(makes, best.make)
              && (forall m :: m in makes ==> Occurrences(makes, m) <= best.count)
              && (forall j :: 0 <= j < |keys| && keys[j] == best.make ==>
                    forall i :: 0 <= i < j ==> Occurrences(makes, keys[i]) < best.count)
  {
    var keys := FirstOccurrences(makes);
    if |makes| > 0 {
      assert makes[0] in keys;
      var counts := MakeTally(makes);
      var scores := Tallies(keys, counts);
      var k := FirstArgMax(scores);
      var best := BestSellingMake(makes).value;
      assert best == MakeCount(keys[k], counts[keys[k]]);
      forall m | m in makes
        ensures Occurrences(makes, m) <= best.count
      {
        var j :| 0 <= j < |keys| && keys[j] == m;
        assert scores[j] <= scores[k];
      }
      forall j | 0 <= j < |keys| && keys[j] == best.make
        ensures forall i :: 0 <= i < j ==> Occurrences(makes, keys[i]) < best.count
      {
        assert j == k;
        forall i | 0 <= i < j
          ensures Occurrences(makes, keys[i]) < best.count
        {
          assert scores[i] < scores[k];
        }
      }
    }
  }

  // --------------------------------------------------------------- most profitable sale

  function SaleProfits(sales: seq<MonthSale>): (ps: seq<real>)
    ensures |ps| == |sales|
    ensures forall i :: 0 <= i < |sales| ==> ps[i] == FiguresProfit(sales[i].figures)
  {
    seq(|sales|, i requires 0 <= i < |sales| => FiguresProfit(sales[i].figures))
  }

  datatype ProfitableSale = ProfitableSale(car: string, profit: real)

  /** This month's most profitable sale by recomputed profit, reported as "make model"
      with that profit; the first of equally profitable sales is kept. */
  function MostProfitableSale(sales: seq<MonthSale>): (best: Option<ProfitableSale>)
    ensures best.None? <==> |sales| == 0
    ensures best.Some? ==>
              exists k :: (0 <= k < |sales|
                           && best.value == ProfitableSale(sales[k].make + " " + sales[k].model, FiguresProfit(sales[k].figures))
                           && (forall j :: 0 <= j < |sales| ==> FiguresProfit(sales[j].figures) <= best.value.profit)
                           && (forall j :: 0 <= j < k ==> FiguresProfit(sales[j].figures) < best.value.profit))
  {
    if |sales| == 0 then None
    else
      var ps := SaleProfits(sales);
      var k := FirstArgMax(ps);
      var s := sales[k];
      Some(ProfitableSale(s.make + " " + s.model, FiguresProfit(s.figures)))
  }

  // --------------------------------------------------------------- trend

  /** A month counted back from the current one: 0 is this month, -1 the month before. */
  datatype TrendPoint = TrendPoint(monthOffset: int, sales: nat, revenue: real, profit: real)

  const TrendLength: nat := 6

  /** The six trend windows, oldest first, ending with the current month. */
  function TrendOffsets(): (offsets: seq<int>)
    ensures |offsets| == TrendLength
    ensures forall i :: 0 <= i < TrendLength ==> offsets[i] == i - (TrendLength - 1)
  {
    seq(TrendLength, i requires 0 <= i < TrendLength => i - (TrendLength - 1))
  }

  /** One trend point per window's fetched sales, with the same revenue and profit
      formulas as the month summary. */
  function MonthlyTrend(results: seq<seq<SaleFigures>>): (t: seq<TrendPoint>)
    requires |results| == TrendLength
    ensures |t| == TrendLength
    ensures forall i :: 0 <= i < TrendLength ==>
              t[i].monthOffset == TrendOffsets()[i] && t[i].sales == |results[i]|
              && t[i].revenue == Revenue(results[i]) && t[i].profit == Profit(results[i])
  {
    seq(TrendLength, i requires 0 <= i < TrendLength =>
      TrendPoint(TrendOffsets()[i], |results[i]|, Revenue(results[i]), Profit(results[i])))
  }

  /** The trend runs oldest first, one month apart, and its last point is the current
      month; when the current window fetched the same sales as the month summary, the two
      report the same count, revenue and profit. */
  lemma TrendEndsWithThisMonth(results: seq<seq<SaleFigures>>, thisMonth: seq<MonthSale>)
    requires |results| == TrendLength
    ensures var t := MonthlyTrend(results);
            && t[TrendLength - 1].monthOffset == 0
            && forall i :: 0 < i < TrendLength ==> t[i].monthOffset == t[i - 1].monthOffset + 1
    ensures results[TrendLength - 1] == Figures(thisMonth) ==>
              var t := MonthlyTrend(results);
              var m := ThisMonth(thisMonth);
              t[TrendLength - 1].sales == m.salesCount && t[TrendLength - 1].revenue == m.revenue
              && t[TrendLength - 1].profit == m.profit
  {
  }

  // --------------------------------------------------------------- assembled result

  const LowStockThreshold: nat := 5

  datatype Stats = Stats(
    totalCarsInStock: nat, inventoryValue: real, carsByStatus: seq<StatusCount>,
    thisMonth: MonthSummary, oldInventory: nat, followUpsToday: nat, lowStock: bool,
    avgDaysToSell: int, avgProfit: int, bestSellingMake: Option<MakeCount>,
    mostProfitableSale: Option<ProfitableSale>, monthlyTrend: seq<TrendPoint>)

  /** Assembles the dashboard from the fetched rows: `now` is the request instant, the
      other inputs are the query results, taken in sequence. */
  method ComputeStats(now: int, inStock: seq<StockCar>, byStatus: seq<StatusCount>, monthSales: seq<MonthSale>,
                      followUpsToday: nat, recentSales: seq<RecentSale>, saleMakes: seq<string>,
                      trendResults: seq<seq<SaleFigures>>)
    returns (st: Stats)
    requires |trendResults| == TrendLength
    ensures st.totalCarsInStock == |inStock|
    ensures st.lowStock <==> |inStock| < LowStockThreshold
    ensures st.inventoryValue == InventoryValue(inStock)
    ensures st.oldInventory == OldInventoryCount(inStock, SixtyDaysBefore(now))
    ensures st.oldInventory <= st.totalCarsInStock
    ensures st.thisMonth == ThisMonth(monthSales)
    ensures st.avgDaysToSell == Round(AvgDaysToSell(recentSales))
    ensures st.avgProfit == Round(AvgProfit(recentSales))
    ensures |recentSales| == 0 ==> st.avgDaysToSell == 0 && st.avgProfit == 0
    ensures st.bestSellingMake == BestSellingMake(saleMakes)
    ensures st.mostProfitableSale == MostProfitableSale(monthSales)
    ensures st.monthlyTrend == MonthlyTrend(trendResults)
    ensures st.carsByStatus == byStatus && st.followUpsToday == followUpsToday
  {
    var counts, keys := CountMakes(saleMakes);
    assert counts == MakeTally(saleMakes);
    var best := BestEntry(keys, counts);
    st := Stats(|inStock|, InventoryValue(inStock), byStatus, ThisMonth(monthSales),
                OldInventoryCount(inStock, SixtyDaysBefore(now)), followUpsToday, |inStock| < LowStockThreshold,
                Round(AvgDaysToSell(recentSales)), Round(AvgProfit(recentSales)), best,
                MostProfitableSale(monthSales), MonthlyTrend(trendResults));
  }
}
