/** The cars endpoint: the filtered, sorted and paged inventory listing with price
    redaction, and car creation. */
module CarsRoute {
  import opened Common
  import opened Enums
  import opened Validations
  import opened ErrorHandler
  import opened Store
  import opened Access
  import opened Utils

  /** Whether a query parameter names a car status. */
  function IsValidCarStatus(status: string): (ok: bool)
    ensures ok <==> exists st :: CarStatusName(st) == status
  {
    ParseCarStatus(status).Some?
  }

  // --------------------------------------------------------------- GET

  /** A case-insensitive substring condition on one column. */
  datatype Contains = Contains(column: string, text: string)

  datatype PriceRange = PriceRange(gte: Option<real>, lte: Option<real>)

  datatype CarWhere = CarWhere(status: Option<CarStatus>, make: Option<Contains>,
                               targetPrice: Option<PriceRange>, anyOf: seq<Contains>)

  /** The columns a free-text search looks in. */
  const SearchColumns: seq<string> := ["make", "model", "vin", "licensePlate"]

  /** The listing filter. Each parameter is applied only when given; the status only when
      it names a status; the price bounds are set independently of each other; and a
      search becomes one condition per search column. Prices go through `parseFloat`. */
  method BuildCarWhere(status: Option<string>, make: Option<string>, search: Option<string>,
                       minPrice: Option<string>, maxPrice: Option<string>, parseFloat: string -> real)
    returns (w: CarWhere)
    ensures w.status.Some? <==> Given(status) && IsValidCarStatus(status.value)
    ensures w.status.Some? ==> CarStatusName(w.status.value) == status.value
    ensures w.make.Some? <==> Given(make)
    ensures w.make.Some? ==> w.make.value == Contains("make", make.value)
    ensures w.targetPrice.Some? <==> Given(minPrice) || Given(maxPrice)
    ensures w.targetPrice.Some? ==> (w.targetPrice.value.gte.Some? <==> Given(minPrice))
    ensures w.targetPrice.Some? ==> (w.targetPrice.value.lte.Some? <==> Given(maxPrice))
    ensures w.targetPrice.Some? && Given(minPrice) ==> w.targetPrice.value.gte.value == parseFloat(minPrice.value)
    ensures w.targetPrice.Some? && Given(maxPrice) ==> w.targetPrice.value.lte.value == parseFloat(maxPrice.value)
    ensures !Given(search) ==> w.anyOf == []
    ensures Given(search) ==> |w.anyOf| == |SearchColumns|
                              && forall i :: 0 <= i < |SearchColumns| ==> w.anyOf[i] == Contains(SearchColumns[i], search.value)
  {
    w := CarWhere(None, None, None, []);
    if Given(status) && IsValidCarStatus(status.value) {
      w := w.(status := ParseCarStatus(status.value));
    }
    if Given(make) {
      w := w.(make := Some(Contains("make", make.value)));
    }
    if Given(minPrice) || Given(maxPrice) {
      var range := PriceRange(None, None);
      if Given(minPrice) {
        range := range.(gte := Some(parseFloat(minPrice.value)));
      }
      if Given(maxPrice) {
        range := range.(lte := Some(parseFloat(maxPrice.value)));
      }
      w := w.(targetPrice := Some(range));
    }
    if Given(search) {
      var text := search.value;
      w := w.(anyOf := [Contains("make", text), Contains("model", text), Contains("vin", text),
                        Contains("licensePlate", text)]);
    }
  }

  /** Ordering of the listing: a column and a direction, `createdAt` descending unless
      given. */
  datatype Ordering = Ordering(column: string, direction: string)

  function ListOrdering(sortBy: Option<string>, sortOrder: Option<string>): (o: Ordering)
    ensures o.column == if Given(sortBy) then sortBy.value else "createdAt"
    ensures o.direction == if Given(sortOrder) then sortOrder.value else "desc"
  {
    Ordering(if Given(sortBy) then sortBy.value else "createdAt",
             if Given(sortOrder) then sortOrder.value else "desc")
  }

  const DefaultPage: int := 1
  const DefaultLimit: int := 50

  /** The slice of the ordered result a page shows. */
  datatype Window = Window(page: int, skip: int, take: int)

  /** Page and limit default to 1 and 50 when not given; page p of size n starts after
      (p - 1) * n rows and holds at most n rows. */
  function PageWindow(page: Option<int>, limit: Option<int>): (w: Window)
    ensures w.page == if page.Some? then page.value else DefaultPage
    ensures w.take == if limit.Some? then limit.value else DefaultLimit
    ensures w.skip + w.take == w.page * w.take
  {
    var p := if page.Some? then page.value else DefaultPage;
    var n := if limit.Some? then limit.value else DefaultLimit;
    Window(p, (p - 1) * n, n)
  }

  /** `Math.ceil(total / limit)`: the least number of pages of `limit` rows that hold
      `total` rows. */
  function TotalPages(total: nat, limit: int): (pages: nat)
    requires limit > 0
    ensures pages * limit >= total
    ensures pages > 0 ==> (pages - 1) * limit < total
  {
    var q := (total + limit - 1) / limit;
    var r := (total + limit - 1) % limit;
    assert q * limit + r == total + limit - 1;
    q
  }

  /** Paging through the listing reaches every row: the last page starts before the end,
      and the page after it starts at or past the end. */
  lemma {:induction false} LastPageIsLast(total: nat, limit: int)
    requires total > 0 && limit > 0
    ensures PageWindow(Some(TotalPages(total, limit)), Some(limit)).skip < total
    ensures PageWindow(Some(TotalPages(total, limit) + 1), Some(limit)).skip >= total
  {
    var n := TotalPages(total, limit);
    assert n > 0;
  }

  /** One fetched car with its expenses and, when it has been sold, its sale (the photos,
      the sale's customer and the counts are passed through untouched and not modelled). */
  datatype CarRow = CarRow(car: Car, expenses: seq<Expense>, sale: Option<Sale>)

  /** A listed car: the fetched row spread, the expense total added, the price redacted. */
  datatype CarListItem = CarListItem(car: RedactedCar, expenses: seq<Expense>, sale: Option<Sale>, totalExpenses: real)

  function ListCar(row: CarRow, role: Role): (item: CarListItem)
    ensures item.totalExpenses == Sum(Amounts(row.expenses))
    ensures item.car.purchasePrice.None? <==> role == Salesperson
    ensures item.car == Redact(row.car, role)
    ensures item.expenses == row.expenses && item.sale == row.sale
  {
    CarListItem(Redact(row.car, role), row.expenses, row.sale, Sum(Amounts(row.expenses)))
  }

  datatype CarListing = CarListing(cars: seq<CarListItem>, total: nat, page: int, totalPages: nat)

  /** The listing response: one item per fetched row in order, the total count, the page
      and the page count. */
  function Listing(rows: seq<CarRow>, total: nat, page: int, limit: int, role: Role): (l: CarListing)
    requires limit > 0
    ensures |l.cars| == |rows|
    ensures forall i :: 0 <= i < |rows| ==> l.cars[i] == ListCar(rows[i], role)
    ensures l.total == total && l.page == page && l.totalPages == TotalPages(total, limit)
  {
    CarListing(seq(|rows|, i requires 0 <= i < |rows| => ListCar(rows[i], role)), total, page,
               TotalPages(total, limit))
  }

  /** The price field itself never reaches a salesperson: two fetches that differ only in
      the cars' purchase prices, with the same included sales, produce the same response.
      The included sale is another matter (see `CarsListingRevealsPrice`). */
  lemma SalespersonListingIgnoresPrices(a: seq<CarRow>, b: seq<CarRow>, total: nat, page: int, limit: int)
    requires limit > 0 && |a| == |b|
    requires forall i :: 0 <= i < |a| ==>
               && a[i].expenses == b[i].expenses && a[i].sale == b[i].sale
               && a[i].car.(purchasePrice := 0.0) == b[i].car.(purchasePrice := 0.0)
    ensures Listing(a, total, page, limit, Salesperson) == Listing(b, total, page, limit, Salesperson)
  {
    var la := Listing(a, total, page, limit, Salesperson);
    var lb := Listing(b, total, page, limit, Salesperson);
    forall i | 0 <= i < |a|
      ensures la.cars[i] == lb.cars[i]
    {
      assert a[i].car.id == a[i].car.(purchasePrice := 0.0).id;
      assert b[i].car.id == b[i].car.(purchasePrice := 0.0).id;
      RedactionHidesPurchasePrice(a[i].car, b[i].car);
    }
  }

  // --------------------------------------------------------------- price visibility

  /** A sold car whose stored profit is still what the sale handler wrote: sale price less
      purchase price less the car's expenses, none recorded since. */
  predicate SoldAsRecorded(row: CarRow)
  {
    row.sale.Some?
    && row.sale.value.profit == CalculateProfit(row.sale.value.salePrice, row.car.purchasePrice, Sum(Amounts(row.expenses)))
  }

  /** Two fetched rows that differ at most in what a salesperson is not meant to learn:
      the car's purchase price and its sale's stored profit. */
  predicate SamePublicCarRow(a: CarRow, b: CarRow)
  {
    && a.car.(purchasePrice := b.car.purchasePrice) == b.car
    && a.expenses == b.expenses
    && a.sale.Some? == b.sale.Some?
    && (a.sale.Some? ==> a.sale.value.(profit := b.sale.value.profit) == b.sale.value)
  }

  /** As written, a listed car carries its included sale, stored profit and all, next to
      the expense total: for a sold car with no expense recorded since the sale, sale
      price less stored profit less expense total is the purchase price, so two such
      cars that differ only in purchase price are listed differently to a salesperson. */
  lemma CarsListingRevealsPrice(a: CarRow, b: CarRow)
    requires SoldAsRecorded(a) && SoldAsRecorded(b) && SamePublicCarRow(a, b)
    requires a.car.purchasePrice != b.car.purchasePrice
    ensures var item := ListCar(a, Salesperson);
            && item.car.purchasePrice.None? && item.sale.Some?
            && item.sale.value.salePrice - item.sale.value.profit - item.totalExpenses == a.car.purchasePrice
    ensures ListCar(a, Salesperson) != ListCar(b, Salesperson)
  {
  }

  /** A listed car whose included sale has its stored profit in its own key, withheld
      from salespeople. `sale` carries the sale's other keys; its profit slot is always 0. */
  datatype GuardedCarListItem = GuardedCarListItem(car: RedactedCar, expenses: seq<Expense>, sale: Option<Sale>,
                                                   saleProfit: Option<real>, totalExpenses: real)

  /** The listed car with the included sale's profit withheld from salespeople along with
      the purchase price; every other role gets what the listing sends now. */
  function GuardedListCar(row: CarRow, role: Role): (item: GuardedCarListItem)
    ensures item.saleProfit.Some? <==> row.sale.Some? && role != Salesperson
    ensures item.saleProfit.Some? ==> item.saleProfit.value == row.sale.value.profit
    ensures item.sale.Some? <==> row.sale.Some?
    ensures item.sale.Some? ==> item.sale.value == row.sale.value.(profit := 0.0)
    ensures var w := ListCar(row, role);
            item.car == w.car && item.expenses == w.expenses && item.totalExpenses == w.totalExpenses
  {
    var w := ListCar(row, role);
    var sale := if row.sale.Some? then Some(row.sale.value.(profit := 0.0)) else None;
    var profit := if row.sale.Some? && role != Salesperson then Some(row.sale.value.profit) else None;
    GuardedCarListItem(w.car, w.expenses, sale, profit, w.totalExpenses)
  }

  datatype GuardedCarListing = GuardedCarListing(cars: seq<GuardedCarListItem>, total: nat, page: int, totalPages: nat)

  /** The corrected listing response: one corrected item per fetched row in order, with
      the same total, page and page count. */
  function GuardedListing(rows: seq<CarRow>, total: nat, page: int, limit: int, role: Role): (l: GuardedCarListing)
    requires limit > 0
    ensures |l.cars| == |rows|
    ensures forall i :: 0 <= i < |rows| ==> l.cars[i] == GuardedListCar(rows[i], role)
    ensures var w := Listing(rows, total, page, limit, role);
            l.total == w.total && l.page == w.page && l.totalPages == w.totalPages
  {
    GuardedCarListing(seq(|rows|, i requires 0 <= i < |rows| => GuardedListCar(rows[i], role)), total, page,
                      TotalPages(total, limit))
  }

  /** With the sale's profit withheld, what a salesperson receives no longer depends on
      any car's purchase price or any stored profit. */
  lemma GuardedCarListingHidesPurchasePrice(a: seq<CarRow>, b: seq<CarRow>, total: nat, page: int, limit: int)
    requires limit > 0 && |a| == |b|
    requires forall i :: 0 <= i < |a| ==> SamePublicCarRow(a[i], b[i])
    ensures GuardedListing(a, total, page, limit, Salesperson) == GuardedListing(b, total, page, limit, Salesperson)
  {
    var la := GuardedListing(a, total, page, limit, Salesperson);
    var lb := GuardedListing(b, total, page, limit, Salesperson);
    forall i | 0 <= i < |a|
      ensures la.cars[i] == lb.cars[i]
    {
      assert a[i].car.(purchasePrice := b[i].car.purchasePrice) == b[i].car;
      RedactionHidesPurchasePrice(a[i].car, b[i].car);
      if a[i].sale.Some? {
        assert a[i].sale.value.(profit := 0.0) == b[i].sale.value.(profit := 0.0) by {
          assert a[i].sale.value.(profit := b[i].sale.value.profit) == b[i].sale.value;
        }
      }
    }
  }

  // --------------------------------------------------------------- POST

  const VinOrPlateTaken: string := "A car with this VIN or license plate already exists"

  /** The handler's own catch: a unique violation gets the car-specific message, anything
      else goes to the shared classifier. Both give the same status. */
  function CarCreateError(e: Thrown): (r: ApiError)
    ensures e.PrismaKnownRequest? && e.code == "P2002" ==> r == ApiError(400, VinOrPlateTaken, [])
    ensures !(e.PrismaKnownRequest? && e.code == "P2002") ==> r == HandleApiError(e)
    ensures r.status == HandleApiError(e).status
  {
    if e.PrismaKnownRequest? && e.code == "P2002" then ApiError(400, VinOrPlateTaken, []) else HandleApiError(e)
  }

  /** The row created from a validated body. */
  function NewCar(id: string, input: CarInput): (c: Car)
    ensures c.id == id && c.status == input.status && c.purchasePrice == input.purchasePrice
    ensures c.details.vin == input.vin && c.details.licensePlate == input.licensePlate
    ensures c.details.minimumPrice == NumberOrNull(input.minimumPrice)
  {
    Car(id, CarDetails(input.make, input.model, input.year, input.color, input.mileage, input.vin,
                       input.licensePlate, input.purchaseDate, input.boughtFrom, input.targetPrice,
                       NumberOrNull(input.minimumPrice), input.location, input.conditionNotes),
        input.purchasePrice, input.status)
  }

  datatype CarCreateOutcome = Unauthorized | Forbidden | Rejected(response: ApiError) | Created(car: Car)

  /** The insert of a validated car. `isDate` says whether `new Date(text)` gives a valid
      instant: an Invalid Date purchase date makes Prisma throw before the row is written.
      Otherwise the insert fails on a clash with a stored car's id, VIN or plate, and
      adds exactly that car when there is none. */
  method InsertCar(db: Store, input: CarInput, isDate: string -> bool, newId: string) returns (o: CarCreateOutcome)
    requires db.Valid()
    modifies db
    ensures db.Valid()
    ensures !isDate(input.purchaseDate) ==> o == Rejected(HandleApiError(InvalidDate)) && unchanged(db)
    ensures isDate(input.purchaseDate) ==>
              if newId in old(db.cars) || KeyConflict(old(db.cars), input.vin, input.licensePlate)
              then o == Rejected(ApiError(400, VinOrPlateTaken, [])) && unchanged(db)
              else o == Created(NewCar(newId, input)) && db.cars == old(db.cars)[newId := o.car]
    ensures db.customers == old(db.customers) && db.expenses == old(db.expenses)
            && db.sales == old(db.sales) && db.users == old(db.users)
  {
    if !isDate(input.purchaseDate) {
      return Rejected(CarCreateError(InvalidDate));
    }
    if newId in db.cars || KeyConflict(db.cars, input.vin, input.licensePlate) {
      return Rejected(CarCreateError(PrismaKnownRequest("P2002", None, "Unique constraint failed")));
    }
    var car := NewCar(newId, input);
    CarInsertConsistent(db.cars, db.customers, db.expenses, db.sales, db.users, car);
    db.cars := db.cars[newId := car];
    o := Created(car);
  }

  /** Creates a car: session, role gate, validation, then the insert. Only a successful
      insert changes the store. */
  method CreateCar(db: Store, session: Option<Session>, body: Body, currentYear: int, isDate: string -> bool,
                   newId: string)
    returns (o: CarCreateOutcome)
    requires db.Valid()
    modifies db
    ensures db.Valid()
    ensures o == Unauthorized <==> session.None?
    ensures o == Forbidden <==> session.Some? && !MaySell(session.value.role)
    ensures session.Some? && MaySell(session.value.role) && ParseCar(body, currentYear).Failure? ==>
              o.Rejected? && o.response.status == 400 && o.response.details == IssueDetails(ParseCar(body, currentYear).error)
    ensures session.Some? && MaySell(session.value.role) && ParseCar(body, currentYear).Success? ==>
              var input := ParseCar(body, currentYear).value;
              if !isDate(input.purchaseDate) then o == Rejected(HandleApiError(InvalidDate))
              else if newId in old(db.cars) || KeyConflict(old(db.cars), input.vin, input.licensePlate)
              then o == Rejected(ApiError(400, VinOrPlateTaken, []))
              else o == Created(NewCar(newId, input)) && db.cars == old(db.cars)[newId := o.car]
    ensures !o.Created? ==> unchanged(db)
    ensures db.customers == old(db.customers) && db.expenses == old(db.expenses)
            && db.sales == old(db.sales) && db.users == old(db.users)
  {
    if session.None? {
      return Unauthorized;
    }
    var role := session.value.role;
    if role == Viewer || role == Mechanic {
      return Forbidden;
    }
    var parsed := ParseCar(body, currentYear);
    if parsed.Failure? {
      return Rejected(CarCreateError(ZodError(parsed.error, "")));
    }
    o := InsertCar(db, parsed.value, isDate, newId);
  }
}
