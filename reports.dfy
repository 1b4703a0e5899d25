/** The sales report: one row per sale in the chosen period, with its own profit, and a
    summary over the rows. */
module SalesReport {
  import opened Common
  import opened Enums
  import opened Utils
  import opened Store
  import opened SalesRoute

  datatype ReportRow = ReportRow(
    id: string, date: string, car: string, customer: string, seller: string,
    purchasePrice: real, expenses: real, salePrice: real, profit: real,
    paymentMethod: PaymentMethod, paymentStatus: PaymentStatus)

  /** "make model year", the year written in decimal. */
  function CarLabel(car: Car): string
  {
    car.details.make + " " + car.details.model + " " + IntToString(car.details.year)
  }

  /** `seller?.name || 'N/A'`: a missing seller or an empty name shows as "N/A". */
  function SellerLabel(name: Option<string>): (s: string)
    ensures Given(name) ==> s == name.value
    ensures !Given(name) ==> s == "N/A"
  {
    if Given(name) then name.value else "N/A"
  }

  function ReportRowOf(row: SaleRow): (r: ReportRow)
    ensures r.expenses == Sum(Amounts(row.carExpenses))
    ensures r.profit + r.purchasePrice + r.expenses == r.salePrice
    ensures r.id == row.sale.id && r.purchasePrice == row.car.purchasePrice && r.salePrice == row.sale.salePrice
    ensures r.customer == row.customer.name && r.seller == SellerLabel(row.sellerName)
  {
    var totalExpenses := Sum(Amounts(row.carExpenses));
    ReportRow(row.sale.id, row.sale.saleDate, CarLabel(row.car), row.customer.name, SellerLabel(row.sellerName),
              row.car.purchasePrice, totalExpenses, row.sale.salePrice,
              row.sale.salePrice - row.car.purchasePrice - totalExpenses,
              row.sale.paymentMethod, row.sale.paymentStatus)
  }

  /** One report row per fetched sale, in the fetched order. */
  function ReportRows(rows: seq<SaleRow>): (rs: seq<ReportRow>)
    ensures |rs| == |rows|
    ensures forall i :: 0 <= i < |rows| ==> rs[i] == ReportRowOf(rows[i])
  {
    seq(|rows|, i requires 0 <= i < |rows| => ReportRowOf(rows[i]))
  }

  /** The report shows the same profit for a sale as the sales listing does. */
  lemma ReportProfitMatchesListing(row: SaleRow, role: Role)
    ensures ReportRowOf(row).profit == ViewSale(row, role).sale.profit
  {
  }

  datatype Summary = Summary(totalSales: nat, totalRevenue: real, totalProfit: real, totalExpenses: real, avgProfit: real)

  function SalePrices(rows: seq<ReportRow>): seq<real>
  {
    seq(|rows|, i requires 0 <= i < |rows| => rows[i].salePrice)
  }

  function Profits(rows: seq<ReportRow>): seq<real>
  {
    seq(|rows|, i requires 0 <= i < |rows| => rows[i].profit)
  }

  function ExpenseTotals(rows: seq<ReportRow>): seq<real>
  {
    seq(|rows|, i requires 0 <= i < |rows| => rows[i].expenses)
  }

  function PurchasePrices(rows: seq<ReportRow>): seq<real>
  {
    seq(|rows|, i requires 0 <= i < |rows| => rows[i].purchasePrice)
  }

  /** The summary: counts and left-to-right totals, and the mean profit, which is 0 for
      an empty report. */
  function Summarize(rows: seq<ReportRow>): (s: Summary)
    ensures s.totalSales == |rows|
    ensures |rows| == 0 ==> s.totalRevenue == 0.0 && s.totalProfit == 0.0 && s.avgProfit == 0.0
    ensures |rows| > 0 ==> s.avgProfit * (|rows| as real) == s.totalProfit
  {
    var totalProfit := Sum(Profits(rows));
    Summary(|rows|, Sum(SalePrices(rows)), totalProfit, Sum(ExpenseTotals(rows)),
            if |rows| > 0 then totalProfit / (|rows| as real) else 0.0)
  }

  /** Totals of a report prefix extended by one row. */
  lemma RowTotalsSnoc(rows: seq<ReportRow>)
    requires |rows| > 0
    ensures var p := rows[..|rows| - 1];
            && SalePrices(rows)[..|rows| - 1] == SalePrices(p) && Profits(rows)[..|rows| - 1] == Profits(p)
            && ExpenseTotals(rows)[..|rows| - 1] == ExpenseTotals(p)
            && PurchasePrices(rows)[..|rows| - 1] == PurchasePrices(p)
  {
  }

  /** Summing the per-row identity: over any rows whose profit is sale price less
      purchase price less expenses, the total profit is total revenue less the summed
      purchase prices less the total expenses. */
  lemma {:induction false} TotalsIdentity(rows: seq<ReportRow>)
    requires forall i :: 0 <= i < |rows| ==> rows[i].profit + rows[i].purchasePrice + rows[i].expenses == rows[i].salePrice
    ensures Sum(Profits(rows)) == Sum(SalePrices(rows)) - Sum(PurchasePrices(rows)) - Sum(ExpenseTotals(rows))
  {
    if |rows| > 0 {
      RowTotalsSnoc(rows);
      TotalsIdentity(rows[..|rows| - 1]);
    }
  }

  /** The report's summary: as many sales as fetched rows, and total profit equal to
      total revenue less the summed purchase prices less the total expenses. */
  lemma SummaryProfitIdentity(rows: seq<SaleRow>)
    ensures Summarize(ReportRows(rows)).totalSales == |rows|
    ensures var rs := ReportRows(rows);
            var s := Summarize(rs);
            s.totalProfit == s.totalRevenue - Sum(PurchasePrices(rs)) - s.totalExpenses
  {
    TotalsIdentity(ReportRows(rows));
  }

  // --------------------------------------------------------------- price visibility

  /** As written, the report has no role gate and sends every signed-in caller each car's
      purchase price and the profit: two sales that differ only in the car's purchase
      price give different report rows. */
  lemma ReportRevealsPurchasePrice(a: SaleRow, b: SaleRow)
    requires SamePublicRow(a, b) && a.car.purchasePrice != b.car.purchasePrice
    ensures ReportRowOf(a).purchasePrice == a.car.purchasePrice
    ensures ReportRowOf(a) != ReportRowOf(b)
  {
  }

  /** A report row whose purchase price and profit are withheld from salespeople. */
  datatype GuardedReportRow = GuardedReportRow(
    id: string, date: string, car: string, customer: string, seller: string,
    purchasePrice: Option<real>, expenses: real, salePrice: real, profit: Option<real>,
    paymentMethod: PaymentMethod, paymentStatus: PaymentStatus)

  function GuardedReportRowOf(row: SaleRow, role: Role): (r: GuardedReportRow)
    ensures r.purchasePrice.None? <==> role == Salesperson
    ensures r.profit.None? <==> role == Salesperson
    ensures var full := ReportRowOf(row);
            && (role != Salesperson ==> r.purchasePrice == Some(full.purchasePrice) && r.profit == Some(full.profit))
            && r.id == full.id && r.date == full.date && r.car == full.car && r.customer == full.customer
            && r.seller == full.seller && r.expenses == full.expenses && r.salePrice == full.salePrice
            && r.paymentMethod == full.paymentMethod && r.paymentStatus == full.paymentStatus
  {
    var full := ReportRowOf(row);
    var withheld := role == Salesperson;
    GuardedReportRow(full.id, full.date, full.car, full.customer, full.seller,
                     (if withheld then None else Some(full.purchasePrice)), full.expenses, full.salePrice,
                     (if withheld then None else Some(full.profit)), full.paymentMethod, full.paymentStatus)
  }

  /** A summary whose profit figures are withheld from salespeople: over a one-sale
      period the total profit is that sale's profit. */
  datatype GuardedSummary = GuardedSummary(totalSales: nat, totalRevenue: real, totalProfit: Option<real>,
                                           totalExpenses: real, avgProfit: Option<real>)

  datatype GuardedReport = GuardedReport(sales: seq<GuardedReportRow>, summary: GuardedSummary)

  /** The report with the salesperson's view restricted; every other role receives the
      same figures as the report sends now. */
  function GuardedReportOf(rows: seq<SaleRow>, role: Role): (g: GuardedReport)
    ensures |g.sales| == |rows|
    ensures forall i :: 0 <= i < |rows| ==> g.sales[i] == GuardedReportRowOf(rows[i], role)
    ensures var s := Summarize(ReportRows(rows));
            && g.summary.totalSales == s.totalSales && g.summary.totalRevenue == s.totalRevenue
            && g.summary.totalExpenses == s.totalExpenses
            && (g.summary.totalProfit.None? <==> role == Salesperson)
            && (g.summary.avgProfit.None? <==> role == Salesperson)
            && (role != Salesperson ==> g.summary.totalProfit == Some(s.totalProfit) && g.summary.avgProfit == Some(s.avgProfit))
  {
    var s := Summarize(ReportRows(rows));
    var withheld := role == Salesperson;
    GuardedReport(seq(|rows|, i requires 0 <= i < |rows| => GuardedReportRowOf(rows[i], role)),
                  GuardedSummary(s.totalSales, s.totalRevenue, (if withheld then None else Some(s.totalProfit)),
                                 s.totalExpenses, (if withheld then None else Some(s.avgProfit))))
  }

  /** With the restriction, what a salesperson receives no longer depends on any car's
      purchase price or any sale's stored profit. */
  lemma GuardedReportHidesPurchasePrice(a: seq<SaleRow>, b: seq<SaleRow>)
    requires |a| == |b| && forall i :: 0 <= i < |a| ==> SamePublicRow(a[i], b[i])
    ensures GuardedReportOf(a, Salesperson) == GuardedReportOf(b, Salesperson)
  {
    var ra, rb := ReportRows(a), ReportRows(b);
    forall i | 0 <= i < |a|
      ensures GuardedReportRowOf(a[i], Salesperson) == GuardedReportRowOf(b[i], Salesperson)
      ensures ra[i].salePrice == rb[i].salePrice && ra[i].expenses == rb[i].expenses
    {
      assert a[i].car.(purchasePrice := b[i].car.purchasePrice) == b[i].car;
      assert a[i].sale.(profit := b[i].sale.profit) == b[i].sale;
    }
    assert SalePrices(ra) == SalePrices(rb);
    assert ExpenseTotals(ra) == ExpenseTotals(rb);
  }
}
