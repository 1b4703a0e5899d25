/** The sales endpoint: the filtered listing with live profit and price redaction, and
    sale recording, the one handler that updates three entities together. */
module SalesRoute {
  import opened Common
  import opened Enums
  import opened Utils
  import opened Validations
  import opened ErrorHandler
  import opened Store
  import opened Access

  /** Whether a query parameter names a payment status. */
  function IsValidPaymentStatus(status: string): (ok: bool)
    ensures ok <==> exists st :: PaymentStatusName(st) == status
  {
    ParsePaymentStatus(status).Some?
  }

  // --------------------------------------------------------------- GET

  datatype SaleWhere = SaleWhere(saleDate: Option<DateRange>, paymentStatus: Option<PaymentStatus>)

  /** The listing filter: inclusive date bounds set independently, and the payment status
      only when the parameter is a known status (anything else is ignored). */
  method BuildSaleWhere(startDate: Option<string>, endDate: Option<string>, paymentStatus: Option<string>)
    returns (w: SaleWhere)
    ensures w.saleDate.Some? <==> Given(startDate) || Given(endDate)
    ensures w.saleDate.Some? ==> w.saleDate.value == DateRange(GivenValue(startDate), GivenValue(endDate))
    ensures w.paymentStatus.Some? <==> paymentStatus.Some? && IsValidPaymentStatus(paymentStatus.value)
    ensures w.paymentStatus.Some? ==> PaymentStatusName(w.paymentStatus.value) == paymentStatus.value
  {
    w := SaleWhere(None, None);
    var range := BuildDateRange(startDate, endDate);
    w := w.(saleDate := range);
    if Given(paymentStatus) && IsValidPaymentStatus(paymentStatus.value) {
      w := w.(paymentStatus := ParsePaymentStatus(paymentStatus.value));
    }
  }

  /** One fetched sale with its car, the car's current expenses, the customer and, when
      the seller has one, the seller's name. */
  datatype SaleRow = SaleRow(sale: Sale, car: Car, carExpenses: seq<Expense>, customer: Customer, sellerName: Option<string>)

  /** A sale as listed: profit recomputed, expense total added, car redacted. */
  datatype SaleView = SaleView(sale: Sale, totalExpenses: real, car: RedactedCar, carExpenses: seq<Expense>,
                               customer: Customer, sellerName: Option<string>)

  function ViewSale(row: SaleRow, role: Role): (v: SaleView)
    ensures v.totalExpenses == Sum(Amounts(row.carExpenses))
    ensures v.sale.profit + row.car.purchasePrice + v.totalExpenses == row.sale.salePrice
    ensures v.sale == row.sale.(profit := v.sale.profit)
    ensures v.car.purchasePrice.None? <==> role == Salesperson
    ensures v.car == Redact(row.car, role)
    ensures v.carExpenses == row.carExpenses && v.customer == row.customer && v.sellerName == row.sellerName
  {
    var totalExpenses := Sum(Amounts(row.carExpenses));
    var profit := CalculateProfit(row.sale.salePrice, row.car.purchasePrice, totalExpenses);
    SaleView(row.sale.(profit := profit), totalExpenses, Redact(row.car, role), row.carExpenses,
             row.customer, row.sellerName)
  }

  /** The response list: one view per fetched row, same order. */
  function ViewSales(rows: seq<SaleRow>, role: Role): (vs: seq<SaleView>)
    ensures |vs| == |rows|
    ensures forall i :: 0 <= i < |rows| ==> vs[i] == ViewSale(rows[i], role)
  {
    seq(|rows|, i requires 0 <= i < |rows| => ViewSale(rows[i], role))
  }

  /** The listed profit is not the stored one: when the stored profit was computed from the
      expenses recorded up to the sale, the listing reports it lowered by everything
      recorded against the car since. */
  lemma ListedProfitDrift(row: SaleRow, role: Role, before: seq<Expense>, since: seq<Expense>)
    requires row.carExpenses == CarExpenses(before + since, row.sale.carId)
    requires row.sale.profit == CalculateProfit(row.sale.salePrice, row.car.purchasePrice,
                                                CarExpenseTotal(before, row.sale.carId))
    ensures ViewSale(row, role).sale.profit == row.sale.profit - CarExpenseTotal(since, row.sale.carId)
  {
    CarExpenseTotalAppend(before, since, row.sale.carId);
  }

  /** Recording an expense against a sold car leaves the sale row, and so its stored
      profit, as it was, while the listing's profit for that sale drops by the amount. An
      expense for another car changes neither. */
  lemma RecordedExpenseLowersListedProfit(row: SaleRow, role: Role, expenses: seq<Expense>, e: Expense)
    requires row.carExpenses == CarExpenses(expenses, row.sale.carId)
    ensures var after := row.(carExpenses := CarExpenses(expenses + [e], row.sale.carId));
            && after.sale == row.sale
            && ViewSale(after, role).sale.profit
               == ViewSale(row, role).sale.profit - (if e.carId == row.sale.carId then e.amount else 0.0)
  {
    ExpenseTotalAfterAppend(expenses, e, row.sale.carId);
  }

  // --------------------------------------------------------------- price visibility

  /** Two fetched rows that differ at most in what a salesperson is not meant to learn:
      the car's purchase price and the sale's stored profit. */
  predicate SamePublicRow(a: SaleRow, b: SaleRow)
  {
    && a.car.(purchasePrice := b.car.purchasePrice) == b.car
    && a.sale.(profit := b.sale.profit) == b.sale
    && a.carExpenses == b.carExpenses && a.customer == b.customer && a.sellerName == b.sellerName
  }

  /** As written, the listing redacts the car but still sends a salesperson the sale
      price, the recomputed profit and the expense total, and those three give the
      purchase price back: two sales that differ only in the car's purchase price are
      listed differently. */
  lemma SalespersonListingRevealsPrice(a: SaleRow, b: SaleRow)
    requires SamePublicRow(a, b) && a.car.purchasePrice != b.car.purchasePrice
    ensures var v := ViewSale(a, Salesperson);
            v.car.purchasePrice.None? && v.sale.salePrice - v.sale.profit - v.totalExpenses == a.car.purchasePrice
    ensures ViewSale(a, Salesperson) != ViewSale(b, Salesperson)
  {
  }

  /** A listed sale whose profit goes in its own key, withheld from salespeople. `sale`
      carries the sale's other keys; its profit slot is always 0. */
  datatype GuardedSaleView = GuardedSaleView(sale: Sale, profit: Option<real>, totalExpenses: real, car: RedactedCar,
                                             carExpenses: seq<Expense>, customer: Customer, sellerName: Option<string>)

  /** The listing with the profit withheld from salespeople along with the purchase
      price; every other role gets what the listing sends now. */
  function GuardedViewSale(row: SaleRow, role: Role): (v: GuardedSaleView)
    ensures v.profit.None? <==> role == Salesperson
    ensures v.car.purchasePrice.None? <==> role == Salesperson
    ensures v.profit.Some? ==> v.profit.value + row.car.purchasePrice + v.totalExpenses == row.sale.salePrice
    ensures var w := ViewSale(row, role);
            && v.sale == w.sale.(profit := 0.0) && v.totalExpenses == w.totalExpenses && v.car == w.car
            && v.carExpenses == w.carExpenses && v.customer == w.customer && v.sellerName == w.sellerName
            && (role != Salesperson ==> v.profit == Some(w.sale.profit))
  {
    var w := ViewSale(row, role);
    GuardedSaleView(w.sale.(profit := 0.0), if role == Salesperson then None else Some(w.sale.profit),
                    w.totalExpenses, w.car, w.carExpenses, w.customer, w.sellerName)
  }

  /** With the profit withheld, what a salesperson receives no longer depends on the
      purchase price or the stored profit. */
  lemma GuardedListingHidesPurchasePrice(a: SaleRow, b: SaleRow)
    requires SamePublicRow(a, b)
    ensures GuardedViewSale(a, Salesperson) == GuardedViewSale(b, Salesperson)
  {
    assert a.car.(purchasePrice := b.car.purchasePrice) == b.car;
    RedactionHidesPurchasePrice(a.car, b.car);
    assert a.sale.(profit := 0.0) == b.sale.(profit := 0.0) by {
      assert a.sale.(profit := b.sale.profit) == b.sale;
    }
  }

  // --------------------------------------------------------------- POST

  datatype SaleOutcome =
    | Unauthorized
    | Forbidden
    | Invalid(issues: seq<Issue>)
    | CarNotFound
    | AlreadySold
    | Failed(error: Thrown)
    | Created(sale: Sale)

  /** The HTTP status of each outcome. A validation or database error is passed to the
      error classifier without returning its result, so those have no status. */
  function SaleStatus(o: SaleOutcome): (status: Option<nat>)
    ensures status.None? <==> o.Invalid? || o.Failed?
    ensures o.Created? <==> status == Some(201)
  {
    match o
    case Unauthorized => Some(401)
    case Forbidden => Some(403)
    case Invalid(_) => None
    case CarNotFound => Some(404)
    case AlreadySold => Some(400)
    case Failed(_) => None
    case Created(_) => Some(201)
  }

  /** The seller on the record: the one the body names, else the caller. */
  function SellerOf(input: SaleInput, session: Session): (id: string)
    ensures Given(input.sellerId) ==> id == input.sellerId.value
    ensures !Given(input.sellerId) ==> id == session.userId
  {
    if Given(input.sellerId) then input.sellerId.value else session.userId
  }

  /** The request gets past the role gate and validation. */
  predicate ReachesLookup(session: Option<Session>, body: Body)
  {
    session.Some? && MaySell(session.value.role) && ParseSale(body).Success?
  }

  /** The request also gets past the car lookup and the already-sold check. */
  predicate ReachesTransaction(cars: map<string, Car>, sales: seq<Sale>, session: Option<Session>, body: Body)
  {
    && ReachesLookup(session, body)
    && ParseSale(body).value.carId in cars && !CarHasSale(sales, ParseSale(body).value.carId)
  }

  /** The insert succeeds: a fresh id and existing customer and seller rows. */
  predicate Insertable(sales: seq<Sale>, customers: map<string, Customer>, users: map<string, User>,
                       id: string, customerId: string, sellerId: string)
  {
    !SaleIdTaken(sales, id) && customerId in customers && sellerId in users
  }

  /** The transaction: insert the sale, then mark its car and its customer SOLD. It
      works on its own copy of the three tables, so nothing reaches the store unless
      every write succeeds. `isDate` says whether `new Date(text)` gives a valid
      instant; an Invalid Date makes the first write throw before any row is touched. */
  method CommitSale(db: Store, sale: Sale, isDate: string -> bool) returns (o: SaleOutcome)
    requires db.Valid() && sale.carId in db.cars && !CarHasSale(db.sales, sale.carId)
    modifies db
    ensures db.Valid()
    ensures o.Failed? || o.Created?
    ensures o.Created? <==> isDate(sale.saleDate)
                            && Insertable(old(db.sales), old(db.customers), old(db.users), sale.id,
                                          sale.customerId, sale.sellerId)
    ensures o.Failed? ==> (o.error == InvalidDate <==> !isDate(sale.saleDate))
    ensures o.Failed? && isDate(sale.saleDate) ==>
              o.error.PrismaKnownRequest? && (o.error.code == "P2002" <==> SaleIdTaken(old(db.sales), sale.id))
    ensures !o.Created? ==> unchanged(db)
    ensures o.Created? ==>
      && o.sale == sale
      && db.sales == old(db.sales) + [sale]
      && db.cars == old(db.cars)[sale.carId := old(db.cars)[sale.carId].(status := Sold)]
      && db.customers == old(db.customers)[sale.customerId := old(db.customers)[sale.customerId].(status := CustomerSold)]
      && db.expenses == old(db.expenses) && db.users == old(db.users)
  {
    var txSales, txCars, txCustomers := db.sales, db.cars, db.customers;
    if !isDate(sale.saleDate) {
      return Failed(InvalidDate);
    }
    if SaleIdTaken(txSales, sale.id) {
      return Failed(PrismaKnownRequest("P2002", Some(["id"]), "Unique constraint failed"));
    }
    if sale.customerId !in txCustomers || sale.sellerId !in db.users {
      return Failed(PrismaKnownRequest("P2003", None, "Foreign key constraint failed"));
    }
    txSales := txSales + [sale];
    txCars := txCars[sale.carId := txCars[sale.carId].(status := Sold)];
    txCustomers := txCustomers[sale.customerId := txCustomers[sale.customerId].(status := CustomerSold)];
    SaleCommitConsistent(db.cars, db.customers, db.expenses, db.sales, db.users, sale);
    db.sales, db.cars, db.customers := txSales, txCars, txCustomers;
    o := Created(sale);
  }

  /** The part of sale recording that follows validation: the car lookup, the
      already-sold check, the profit from the car's current expenses, and the
      transaction. */
  method RecordValidSale(db: Store, caller: Session, input: SaleInput, isDate: string -> bool, newId: string)
    returns (o: SaleOutcome)
    requires db.Valid()
    modifies db
    ensures db.Valid()
    ensures o == CarNotFound <==> input.carId !in old(db.cars)
    ensures o == AlreadySold <==> input.carId in old(db.cars) && CarHasSale(old(db.sales), input.carId)
    ensures o.Created? <==> input.carId in old(db.cars) && !CarHasSale(old(db.sales), input.carId)
                            && isDate(input.saleDate)
                            && Insertable(old(db.sales), old(db.customers), old(db.users), newId,
                                          input.customerId, SellerOf(input, caller))
    ensures o.CarNotFound? || o.AlreadySold? || o.Failed? || o.Created?
    ensures o.Failed? ==> (o.error == InvalidDate <==> !isDate(input.saleDate))
    ensures o.Failed? && isDate(input.saleDate) ==>
              o.error.PrismaKnownRequest? && (o.error.code == "P2002" <==> SaleIdTaken(old(db.sales), newId))
    ensures !o.Created? ==> unchanged(db)
    ensures o.Created? ==>
      var car := old(db.cars)[input.carId];
      && o.sale == Sale(newId, input.carId, input.customerId, SellerOf(input, caller), input.salePrice,
                        input.saleDate, input.paymentMethod, input.paymentStatus,
                        NumberOrNull(input.commission),
                        CalculateProfit(input.salePrice, car.purchasePrice, CarExpenseTotal(old(db.expenses), input.carId)))
      && db.sales == old(db.sales) + [o.sale]
      && db.cars == old(db.cars)[input.carId := car.(status := Sold)]
      && db.customers == old(db.customers)[input.customerId := old(db.customers)[input.customerId].(status := CustomerSold)]
      && db.expenses == old(db.expenses) && db.users == old(db.users)
  {
    if input.carId !in db.cars {
      return CarNotFound;
    }
    var car := db.cars[input.carId];
    if CarHasSale(db.sales, input.carId) {
      return AlreadySold;
    }
    var totalExpenses := CarExpenseTotal(db.expenses, car.id);
    var profit := input.salePrice - car.purchasePrice - totalExpenses;
    var sale := Sale(newId, input.carId, input.customerId, SellerOf(input, caller), input.salePrice,
                     input.saleDate, input.paymentMethod, input.paymentStatus,
                     NumberOrNull(input.commission), profit);
    o := CommitSale(db, sale, isDate);
  }

  /** Records a sale. The checks run in order: session, role (before the body is read),
      body validation, then the steps of RecordValidSale. */
  method RecordSale(db: Store, session: Option<Session>, body: Body, isDate: string -> bool, newId: string)
    returns (o: SaleOutcome)
    requires db.Valid()
    modifies db
    ensures db.Valid()
    ensures o == Unauthorized <==> session.None?
    ensures o == Forbidden <==> session.Some? && !MaySell(session.value.role)
    ensures o.Invalid? <==> session.Some? && MaySell(session.value.role) && ParseSale(body).Failure?
    ensures o.Invalid? ==> o.issues == ParseSale(body).error
    ensures o == CarNotFound <==> session.Some? && MaySell(session.value.role) && ParseSale(body).Success?
                                  && ParseSale(body).value.carId !in old(db.cars)
    ensures o == AlreadySold <==> ReachesLookup(session, body) && ParseSale(body).value.carId in old(db.cars)
                                  && CarHasSale(old(db.sales), ParseSale(body).value.carId)
    ensures o.Created? <==> ReachesTransaction(old(db.cars), old(db.sales), session, body)
                            && isDate(ParseSale(body).value.saleDate)
                            && Insertable(old(db.sales), old(db.customers), old(db.users), newId,
                                          ParseSale(body).value.customerId,
                                          SellerOf(ParseSale(body).value, session.value))
    ensures o.Failed? ==> (o.error == InvalidDate <==> !isDate(ParseSale(body).value.saleDate))
    ensures o.Failed? && isDate(ParseSale(body).value.saleDate) ==>
              o.error.PrismaKnownRequest? && (o.error.code == "P2002" <==> SaleIdTaken(old(db.sales), newId))
    ensures !o.Created? ==> unchanged(db)
    ensures o.Created? ==>
      var input := ParseSale(body).value;
      var car := old(db.cars)[input.carId];
      && o.sale == Sale(newId, input.carId, input.customerId, SellerOf(input, session.value), input.salePrice,
                        input.saleDate, input.paymentMethod, input.paymentStatus,
                        NumberOrNull(input.commission),
                        CalculateProfit(input.salePrice, car.purchasePrice, CarExpenseTotal(old(db.expenses), input.carId)))
      && db.sales == old(db.sales) + [o.sale]
      && db.cars == old(db.cars)[input.carId := car.(status := Sold)]
      && db.customers == old(db.customers)[input.customerId := old(db.customers)[input.customerId].(status := CustomerSold)]
      && db.expenses == old(db.expenses) && db.users == old(db.users)
  {
    if session.None? {
      return Unauthorized;
    }
    var role := session.value.role;
    if role == Viewer || role == Mechanic {
      return Forbidden;
    }
    var parsed := ParseSale(body);
    if parsed.Failure? {
      return Invalid(parsed.error);
    }
    o := RecordValidSale(db, session.value, parsed.value, isDate, newId);
  }
}
